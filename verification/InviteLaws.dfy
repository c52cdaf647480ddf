/** Which invites wait for whom after a step, told from the request and the state before. */
module InviteLaws {
  import opened Registry
  import opened RegistryInvariants
  import opened MembershipLaws
  import RegistryInvites

  ghost predicate In(m: map<NodeId, seq<Invite>>, n: NodeId, i: Invite) {
    n in m && i in m[n]
  }

  /** The invite waits in the inbox of `n`. */
  ghost predicate Waits(s: State, n: NodeId, i: Invite) {
    In(s.invites, n, i)
  }

  /** An authorised invite to an enterprise network that takes members by invitation, sent by an
      operator or by a member who is its owner or an admin, to a live node that is not on it, has
      no invite to it and fewer than a hundred in all. */
  ghost predicate Sent(s: State, op: Op, n: NodeId, i: Invite) {
    op.NetworkStep? && op.networkOp.OpInvite? &&
    var c := op.networkOp;
    && c.authorized && c.target == n && i == Invite(c.net, c.inviter, c.now)
    && c.net in s.networks && s.networks[c.net].enterprise && s.networks[c.net].joinRule == "invite"
    && (c.operator || (Lists(s, c.net, c.inviter)
                       && (Holds(s, c.net, c.inviter, Owner) || Holds(s, c.net, c.inviter, Admin))))
    && n in s.nodes && c.net !in s.nodes[n].networks
    && (n in s.invites ==> |s.invites[n]| < 100 && forall j :: j in s.invites[n] ==> j.net != c.net)
  }

  /** A poll drops what is more than thirty days old. */
  predicate PolledAway(s: State, op: Op, n: NodeId, i: Invite) {
    && op.NetworkStep? && op.networkOp.OpPoll? && op.networkOp.authorized && op.networkOp.id == n && n in s.nodes
    && op.networkOp.now - i.at > 2_592_000
  }

  /** An authorised answer to an invite that waits, to decline or to enter, uses up every invite
      to that network. */
  ghost predicate Answered(s: State, op: Op, n: NodeId, i: Invite) {
    op.NetworkStep? && op.networkOp.OpRespond? &&
    var c := op.networkOp;
    && c.authorized && c.id == n && c.net == i.net && n in s.nodes && Invited(s, c.net, n, c.now)
    && (c.accept ==> Accepts(s, op, c.net, n))
  }

  /** Leaving or being kicked withdraws the node's invites to the network and those it sent. */
  ghost predicate LeftBehind(s: State, op: Op, n: NodeId, i: Invite, m: NodeId) {
    && (n == m || i.inviter == m)
    && (Leaves(s, op, i.net, m) || (op.RoleStep? && op.roleOp.OpKick? && Lists(s, i.net, m) && IsKicked(s, op, i.net, m)))
  }

  /** Who leaves or is kicked in this step, if anyone. */
  function Goer(op: Op): NodeId {
    if op.NetworkStep? && op.networkOp.OpLeave? then op.networkOp.id
    else if op.RoleStep? && op.roleOp.OpKick? then op.roleOp.target
    else 0
  }

  ghost predicate Withdrawn(s: State, op: Op, n: NodeId, i: Invite) {
    || PolledAway(s, op, n, i)
    || Answered(s, op, n, i)
    || LeftBehind(s, op, n, i, Goer(op))
    || (Deletes(s, op, i.net) && i.net in s.networks)
    || (op.NodeStep? && op.nodeOp.OpDeregister? && op.nodeOp.authorized && op.nodeOp.id in s.nodes
        && (n == op.nodeOp.id || i.inviter == op.nodeOp.id))
  }

  ghost predicate WaitsAs(s: State, op: Op, t: State, n: NodeId, i: Invite) {
    Waits(t, n, i) <==> (Waits(s, n, i) && !Withdrawn(s, op, n, i)) || Sent(s, op, n, i)
  }

  // --- the filters -------------------------------------------------------------------------------------

  lemma FilteredAll(m: map<NodeId, seq<Invite>>, keep: Invite -> bool, n: NodeId, i: Invite)
    ensures In(FilterInboxes(m, keep), n, i) <==> In(m, n, i) && keep(i)
  {
  }

  lemma FilteredOne(m: map<NodeId, seq<Invite>>, id: NodeId, keep: Invite -> bool, n: NodeId, i: Invite)
    ensures In(FilterInbox(m, id, keep), n, i) <==> In(m, n, i) && (n == id ==> keep(i))
  {
  }

  /** The two filters of a departure from network `k`. */
  lemma FilteredBoth(m: map<NodeId, seq<Invite>>, id: NodeId, k: NetId, n: NodeId, i: Invite)
    ensures var f := FilterInboxes(FilterInbox(m, id, (i: Invite) => i.net != k),
                                   (i: Invite) => !(i.net == k && i.inviter == id));
            In(f, n, i) <==> In(m, n, i) && !(i.net == k && (n == id || i.inviter == id))
  {
    FilteredOne(m, id, (i: Invite) => i.net != k, n, i);
    FilteredAll(FilterInbox(m, id, (i: Invite) => i.net != k), (i: Invite) => !(i.net == k && i.inviter == id), n, i);
  }

  // --- each kind of step ----------------------------------------------------------------------------------

  lemma InviteWaits(s: State, inviter: NodeId, k: NetId, target: NodeId, now: int, operator: bool, authorized: bool,
                    n: NodeId, i: Invite)
    ensures var op := NetworkStep(OpInvite(inviter, k, target, now, operator, authorized));
            WaitsAs(s, op, InviteTo(s, inviter, k, target, now, operator, authorized), n, i)
  {
  }

  lemma PollWaits(s: State, id: NodeId, now: int, authorized: bool, n: NodeId, i: Invite)
    ensures WaitsAs(s, NetworkStep(OpPoll(id, now, authorized)), PollInvites(s, id, now, authorized), n, i)
  {
    assert Waits(s, id, i) <==> i in InboxOf(s, id);
    assert Expired(i, now) <==> now - i.at > 2_592_000;
  }

  lemma RespondWaits(s: State, id: NodeId, k: NetId, accept: bool, now: int, authorized: bool, n: NodeId, i: Invite)
    ensures WaitsAs(s, NetworkStep(OpRespond(id, k, accept, now, authorized)),
                    RespondInvite(s, id, k, accept, now, authorized), n, i)
  {
    InvitedExactly(s, k, id, now);
    FilteredOne(s.invites, id, (i: Invite) => i.net != k, n, i);
    assert RespondInvite(s, id, k, accept, now, authorized).invites
           == (if RespondInvite(s, id, k, accept, now, authorized) == s then s.invites
               else FilterInbox(s.invites, id, (i: Invite) => i.net != k));
  }

  lemma LeaveWaits(s: State, id: NodeId, k: NetId, authorized: bool, n: NodeId, i: Invite)
    ensures WaitsAs(s, NetworkStep(OpLeave(id, k, authorized)), Leave(s, id, k, authorized), n, i)
  {
    FilteredBoth(s.invites, id, k, n, i);
  }

  lemma DeleteWaits(s: State, k: NetId, authorized: bool, n: NodeId, i: Invite)
    ensures WaitsAs(s, NetworkStep(OpDelete(k, authorized)), DeleteNetwork(s, k, authorized), n, i)
  {
    FilteredAll(s.invites, (i: Invite) => i.net != k, n, i);
  }

  lemma KickWaits(s: State, k: NetId, target: NodeId, caller: NodeId, authorized: bool, n: NodeId, i: Invite)
    ensures WaitsAs(s, RoleStep(OpKick(k, target, caller, authorized)), Kick(s, k, target, caller, authorized), n, i)
  {
    FilteredBoth(s.invites, target, k, n, i);
    KickedInvites(s, k, target, caller, authorized);
    KickKind(s, k, target, caller, authorized, n, i);
  }

  lemma KickKind(s: State, k: NetId, target: NodeId, caller: NodeId, authorized: bool, n: NodeId, i: Invite)
    ensures var op := RoleStep(OpKick(k, target, caller, authorized));
            && !Sent(s, op, n, i)
            && (Withdrawn(s, op, n, i) <==> (n == target || i.inviter == target) && i.net == k
                                            && Lists(s, k, target) && IsKicked(s, op, k, target))
  {
  }

  lemma KickedInvites(s: State, k: NetId, target: NodeId, caller: NodeId, authorized: bool)
    ensures var f := FilterInboxes(FilterInbox(s.invites, target, (i: Invite) => i.net != k),
                                   (i: Invite) => !(i.net == k && i.inviter == target));
            Kick(s, k, target, caller, authorized).invites
            == (if IsKicked(s, RoleStep(OpKick(k, target, caller, authorized)), k, target) && Lists(s, k, target) then f
                else s.invites)
  {
  }

  lemma DeregisterWaits(s: State, id: NodeId, authorized: bool, n: NodeId, i: Invite)
    ensures WaitsAs(s, NodeStep(OpDeregister(id, authorized)), Deregister(s, id, authorized), n, i)
  {
    FilteredAll(s.invites - {id}, (i: Invite) => i.inviter != id, n, i);
  }

  lemma OtherNetworkWaits(s: State, op: NetworkOp, n: NodeId, i: Invite)
    requires op.OpCreate? || op.OpJoin? || op.OpSetEnterprise?
    ensures WaitsAs(s, NetworkStep(op), ApplyNetwork(s, op), n, i)
  {
    assert ApplyNetwork(s, op).invites == s.invites;
  }

  lemma OtherRoleWaits(s: State, op: RoleOp, n: NodeId, i: Invite)
    requires !op.OpKick?
    ensures WaitsAs(s, RoleStep(op), ApplyRole(s, op), n, i)
  {
    assert ApplyRole(s, op).invites == s.invites;
  }

  lemma OtherNodeWaits(s: State, op: NodeOp, n: NodeId, i: Invite)
    requires !op.OpDeregister?
    ensures WaitsAs(s, NodeStep(op), ApplyNode(s, op), n, i)
  {
    assert ApplyNode(s, op).invites == s.invites;
  }

  lemma NetworkWaits(s: State, op: NetworkOp, n: NodeId, i: Invite)
    ensures WaitsAs(s, NetworkStep(op), ApplyNetwork(s, op), n, i)
  {
    match op
    case OpInvite(inviter, k, target, now, o, a) => InviteWaits(s, inviter, k, target, now, o, a, n, i);
    case OpPoll(id, now, a) => PollWaits(s, id, now, a, n, i);
    case OpRespond(id, k, accept, now, a) => RespondWaits(s, id, k, accept, now, a, n, i);
    case OpLeave(id, k, a) => LeaveWaits(s, id, k, a, n, i);
    case OpDelete(k, a) => DeleteWaits(s, k, a, n, i);
    case _ => OtherNetworkWaits(s, op, n, i);
  }

  // --- the law ---------------------------------------------------------------------------------------------

  /** An invite waits after a step exactly if it was sent in the step, or waited before and was not
      withdrawn. */
  lemma InvitesExactly(s: State, op: Op, n: NodeId, i: Invite)
    requires 0 in s.networks
    ensures Waits(Apply(s, op), n, i) <==> (Waits(s, n, i) && !Withdrawn(s, op, n, i)) || Sent(s, op, n, i)
  {
    match op
    case RegisterStep(r) => RegistryInvites.RegisterBeside(s, r);
    case IndexStep(_, _, _) =>
    case NodeStep(d) =>
      if d.OpDeregister? { DeregisterWaits(s, d.id, d.authorized, n, i); } else { OtherNodeWaits(s, d, n, i); }
    case NetworkStep(d) => NetworkWaits(s, d, n, i);
    case RoleStep(d) =>
      if d.OpKick? { KickWaits(s, d.net, d.target, d.caller, d.authorized, n, i); } else { OtherRoleWaits(s, d, n, i); }
  }

  /** A new invite waits behind those that were there. */
  lemma SentIsLast(s: State, op: Op, n: NodeId, i: Invite)
    requires 0 in s.networks && Sent(s, op, n, i)
    ensures n in Apply(s, op).invites
    ensures Apply(s, op).invites[n] == (if n in s.invites then s.invites[n] else []) + [i]
  {
  }
}
