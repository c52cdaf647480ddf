/** The invite inboxes over whole runs, and what departures clear from them. */
module RegistryInvites {
  import opened Registry
  import opened RegistryRuns
  import opened RegistryLimits

  /** One invite per network, at most a hundred. */
  ghost predicate InboxOk(inbox: seq<Invite>) {
    && |inbox| <= MAX_INVITE_INBOX
    && forall i, j :: 0 <= i < j < |inbox| ==> inbox[i].net != inbox[j].net
  }

  ghost predicate BoxesOk(m: map<NodeId, seq<Invite>>) {
    forall t :: t in m ==> InboxOk(m[t])
  }

  /** Invites are to networks that exist. */
  ghost predicate NetsExist(m: map<NodeId, seq<Invite>>, nets: set<NetId>) {
    forall t, i :: t in m && i in m[t] ==> i.net in nets
  }

  ghost predicate InvitesOk(s: State) {
    BoxesOk(s.invites) && NetsExist(s.invites, s.networks.Keys)
  }

  // --- the filters ---------------------------------------------------------------------------

  lemma {:induction false} KeepDistinct(inbox: seq<Invite>, keep: Invite -> bool)
    requires forall i, j :: 0 <= i < j < |inbox| ==> inbox[i].net != inbox[j].net
    ensures var r := KeepInvites(inbox, keep);
            |r| <= |inbox| && forall i, j :: 0 <= i < j < |r| ==> r[i].net != r[j].net
    decreases |inbox|
  {
    if inbox != [] {
      var tail := inbox[1..];
      KeepDistinct(tail, keep);
      var r := KeepInvites(tail, keep);
      forall j | 0 <= j < |r| ensures r[j].net != inbox[0].net {
        assert r[j] in tail;
      }
    }
  }

  lemma FilterInboxesOk(m: map<NodeId, seq<Invite>>, keep: Invite -> bool, nets: set<NetId>)
    requires BoxesOk(m) && NetsExist(m, nets)
    ensures BoxesOk(FilterInboxes(m, keep)) && NetsExist(FilterInboxes(m, keep), nets)
    ensures forall t, i :: t in FilterInboxes(m, keep) && i in FilterInboxes(m, keep)[t] ==> keep(i)
  {
    var f := FilterInboxes(m, keep);
    forall t | t in f ensures InboxOk(f[t]) { KeepDistinct(m[t], keep); }
  }

  lemma FilterInboxOk(m: map<NodeId, seq<Invite>>, t: NodeId, keep: Invite -> bool, nets: set<NetId>)
    requires BoxesOk(m) && NetsExist(m, nets)
    ensures BoxesOk(FilterInbox(m, t, keep)) && NetsExist(FilterInbox(m, t, keep), nets)
    ensures forall i :: t in FilterInbox(m, t, keep) && i in FilterInbox(m, t, keep)[t] ==> keep(i)
  {
    if t in m { KeepDistinct(m[t], keep); }
  }

  // --- what departures clear -----------------------------------------------------------------

  /** Nobody holds an invite to `k` from `id`, and `id` holds none to `k`. */
  ghost predicate NoInvites(s: State, id: NodeId, k: NetId) {
    && (forall t, i :: t in s.invites && i in s.invites[t] ==> !(i.net == k && i.inviter == id))
    && (forall i :: i in InboxOf(s, id) ==> i.net != k)
  }

  lemma ClearedBoth(m: map<NodeId, seq<Invite>>, id: NodeId, k: NetId, nets: set<NetId>)
    requires BoxesOk(m) && NetsExist(m, nets)
    ensures var f := FilterInboxes(FilterInbox(m, id, (i: Invite) => i.net != k), (i: Invite) => !(i.net == k && i.inviter == id));
            && BoxesOk(f) && NetsExist(f, nets)
            && (forall t, i :: t in f && i in f[t] ==> !(i.net == k && i.inviter == id))
            && (forall i :: id in f && i in f[id] ==> i.net != k)
  {
    FilterInboxOk(m, id, (i: Invite) => i.net != k, nets);
    FilterInboxesOk(FilterInbox(m, id, (i: Invite) => i.net != k), (i: Invite) => !(i.net == k && i.inviter == id), nets);
  }

  /** Leaving clears the invites of the node to the network and those it sent for it. */
  lemma LeaveClears(s: State, id: NodeId, k: NetId)
    requires InvitesOk(s) && LeaveAllowed(s, id, k)
    ensures InvitesOk(Leave(s, id, k, true)) && NoInvites(Leave(s, id, k, true), id, k)
  {
    ClearedBoth(s.invites, id, k, s.networks.Keys);
  }

  /** So does being kicked. */
  lemma KickClears(s: State, k: NetId, target: NodeId, caller: NodeId)
    requires InvitesOk(s) && Kick(s, k, target, caller, true) != s
    ensures InvitesOk(Kick(s, k, target, caller, true)) && NoInvites(Kick(s, k, target, caller, true), target, k)
  {
    ClearedBoth(s.invites, target, k, s.networks.Keys);
  }

  /** Deregistering clears the node's inbox and every invite it sent. */
  lemma DeregisterClears(s: State, id: NodeId)
    requires InvitesOk(s) && id in s.nodes
    ensures var t := Deregister(s, id, true);
            && InvitesOk(t) && id !in t.invites
            && forall n, i :: n in t.invites && i in t.invites[n] ==> i.inviter != id
  {
    FilterInboxesOk(s.invites - {id}, (i: Invite) => i.inviter != id, s.networks.Keys);
  }

  /** Deleting a network clears every invite to it. */
  lemma DeleteClears(s: State, k: NetId)
    requires InvitesOk(s) && k != 0 && k in s.networks
    ensures var t := DeleteNetwork(s, k, true);
            InvitesOk(t) && forall n, i :: n in t.invites && i in t.invites[n] ==> i.net != k
  {
    FilterInboxesOk(s.invites, (i: Invite) => i.net != k, s.networks.Keys);
  }

  /** An answered invite is gone and a declined one changes nothing else. */
  lemma RespondClears(s: State, id: NodeId, k: NetId, accept: bool, now: int)
    requires InvitesOk(s) && RespondInvite(s, id, k, accept, now, true) != s
    ensures var t := RespondInvite(s, id, k, accept, now, true);
            && InvitesOk(t) && (forall i :: i in InboxOf(t, id) ==> i.net != k)
            && (!accept ==> t == s.(invites := t.invites))
  {
    FilterInboxOk(s.invites, id, (i: Invite) => i.net != k, s.networks.Keys);
  }

  /** Polling returns and keeps exactly the invites that have not expired. */
  lemma PollClears(s: State, id: NodeId, now: int)
    requires InvitesOk(s) && id in s.nodes
    ensures var t := PollInvites(s, id, now, true);
            && InvitesOk(t) && t == s.(invites := t.invites)
            && (forall i :: i in InboxOf(t, id) <==> i in InboxOf(s, id) && !Expired(i, now))
            && (forall n :: n != id ==> InboxOf(t, n) == InboxOf(s, n))
  {
    KeepDistinct(InboxOf(s, id), (i: Invite) => !Expired(i, now));
  }

  lemma InviteOk(s: State, inviter: NodeId, k: NetId, target: NodeId, now: int, operator: bool, authorized: bool)
    requires InvitesOk(s)
    ensures InvitesOk(InviteTo(s, inviter, k, target, now, operator, authorized))
  {
    var t := InviteTo(s, inviter, k, target, now, operator, authorized);
    if t != s {
      var inbox := InboxOf(s, target);
      forall j | 0 <= j < |inbox| ensures inbox[j].net != k { assert inbox[j] in inbox; }
      assert InboxOk(inbox + [Invite(k, inviter, now)]);
    }
  }

  // --- every step and every run ----------------------------------------------------------------

  lemma Untouched(s: State, t: State)
    requires InvitesOk(s) && t.invites == s.invites && s.networks.Keys <= t.networks.Keys
    ensures InvitesOk(t)
  {
  }

  lemma NodeStepInvites(s: State, op: NodeOp)
    requires InvitesOk(s)
    ensures InvitesOk(ApplyNode(s, op))
  {
    if op.OpDeregister? {
      if op.id in s.nodes && op.authorized { DeregisterClears(s, op.id); }
    } else {
      Untouched(s, ApplyNode(s, op));
    }
  }

  lemma NetworkStepInvites(s: State, op: NetworkOp)
    requires InvitesOk(s)
    ensures InvitesOk(ApplyNetwork(s, op))
  {
    match op
    case OpCreate(_, _, _, _, _, _) => Untouched(s, ApplyNetwork(s, op));
    case OpJoin(_, _, _, _) => Untouched(s, ApplyNetwork(s, op));
    case OpLeave(id, k, a) => if a && LeaveAllowed(s, id, k) { LeaveClears(s, id, k); }
    case OpDelete(k, a) => if k != 0 && a && k in s.networks { DeleteClears(s, k); }
    case OpSetEnterprise(_, _, _) => Untouched(s, ApplyNetwork(s, op));
    case OpInvite(inv, k, t, now, o, a) => InviteOk(s, inv, k, t, now, o, a);
    case OpRespond(id, k, acc, now, a) =>
      if a && RespondInvite(s, id, k, acc, now, true) != s { RespondClears(s, id, k, acc, now); }
    case OpPoll(id, now, a) => if a && id in s.nodes { PollClears(s, id, now); }
  }

  lemma RoleStepInvites(s: State, op: RoleOp)
    requires InvitesOk(s)
    ensures InvitesOk(ApplyRole(s, op))
  {
    if op.OpKick? {
      if op.authorized && Kick(s, op.net, op.target, op.caller, true) != s { KickClears(s, op.net, op.target, op.caller); }
    } else {
      Untouched(s, ApplyRole(s, op));
    }
  }

  ghost predicate Beside(s: State, t: State) {
    t.invites == s.invites && t.networks.Keys == s.networks.Keys
  }

  lemma ReviveBeside(s: State, r: Registration, id: NodeId, networks: seq<NetId>)
    requires 0 in s.networks
    ensures Beside(s, Revive(s, r, id, networks))
  {
  }

  lemma RefreshBeside(s: State, r: Registration)
    requires IsKnownLive(s, r.key)
    ensures Beside(s, FastPath(s, r)) && Beside(s, SlowPath(s, r))
  {
  }

  lemma RegisterBeside(s: State, r: Registration)
    requires 0 in s.networks
    ensures Beside(s, Register(s, r))
  {
    match RegisterPath(s, r)
    case Rejected =>
    case Refreshed => RefreshBeside(s, r);
    case KeyReclaimed =>
      var id := s.pubKeyIdx[r.key];
      ReviveBeside(if r.owner != "" then s.(ownerIdx := s.ownerIdx[r.owner := id]) else s, r, id, [0] + r.scan);
    case OwnerReclaimed =>
      var id := s.ownerIdx[r.owner];
      ReviveBeside(s.(pubKeyIdx := s.pubKeyIdx[r.key := id]), r, id, [0]);
    case Allocated => ReviveBeside(Reserve(s, r), r, s.nextNode, [0]);
  }

  lemma StepKeepsInvites(s: State, op: Op)
    requires 0 in s.networks && InvitesOk(s)
    ensures InvitesOk(Apply(s, op))
  {
    match op
    case RegisterStep(r) => RegisterBeside(s, r);
    case IndexStep(id, prev, key) =>
    case NodeStep(d) => NodeStepInvites(s, d);
    case NetworkStep(d) => NetworkStepInvites(s, d);
    case RoleStep(d) => RoleStepInvites(s, d);
  }

  /** Over every run no inbox is over full or invites twice to one network, and every
      invite is to a network that exists. */
  lemma {:induction false} RunKeepsInvites(s: State, ops: seq<Op>)
    requires Legal(s, ops) && InvitesOk(s)
    ensures InvitesOk(Run(s, ops))
    decreases |ops|
  {
    if ops != [] {
      StepKeepsInvites(s, ops[0]);
      RunKeepsInvites(Apply(s, ops[0]), ops[1..]);
    }
  }

  // --- empty inboxes ------------------------------------------------------------------------------

  /** An inbox that is there holds something. */
  ghost predicate NoneEmpty(s: State) {
    forall t :: t in s.invites ==> s.invites[t] != []
  }

  /** A poll of an inbox all of whose invites have expired. */
  ghost predicate EmptiesInbox(s: State, op: Op) {
    && op.NetworkStep? && op.networkOp.OpPoll? && op.networkOp.authorized && op.networkOp.id in s.nodes
    && InboxOf(s, op.networkOp.id) != []
    && forall i :: i in InboxOf(s, op.networkOp.id) ==> Expired(i, op.networkOp.now)
  }

  lemma PollEmptiesExactly(s: State, id: NodeId, now: int, authorized: bool)
    requires NoneEmpty(s)
    ensures NoneEmpty(PollInvites(s, id, now, authorized)) <==> !EmptiesInbox(s, NetworkStep(OpPoll(id, now, authorized)))
  {
    var t, inbox := PollInvites(s, id, now, authorized), InboxOf(s, id);
    assert inbox != [] ==> inbox[0] in inbox;
    if t != s {
      var kept := KeepInvites(inbox, (i: Invite) => !Expired(i, now));
      assert t.invites[id] == kept && (kept != [] ==> kept[0] in kept);
      if i :| i in inbox && !Expired(i, now) { assert i in kept; }
    }
  }

  lemma NetworkStepNonEmpty(s: State, op: NetworkOp)
    requires NoneEmpty(s) && !op.OpPoll?
    ensures NoneEmpty(ApplyNetwork(s, op))
  {
  }

  lemma RoleStepNonEmpty(s: State, op: RoleOp)
    requires NoneEmpty(s)
    ensures NoneEmpty(ApplyRole(s, op))
  {
  }

  lemma NodeStepNonEmpty(s: State, op: NodeOp)
    requires NoneEmpty(s)
    ensures NoneEmpty(ApplyNode(s, op))
  {
  }

  /** Every step leaves no empty inbox behind, except exactly a poll whose invites have all
      expired: every other handler deletes the inbox it empties. */
  lemma StepEmptiesExactly(s: State, op: Op)
    requires 0 in s.networks && NoneEmpty(s)
    ensures NoneEmpty(Apply(s, op)) <==> !EmptiesInbox(s, op)
  {
    match op
    case RegisterStep(r) => RegisterBeside(s, r);
    case IndexStep(id, prev, key) =>
    case NodeStep(d) => NodeStepNonEmpty(s, d);
    case NetworkStep(d) =>
      if d.OpPoll? { PollEmptiesExactly(s, d.id, d.now, d.authorized); } else { NetworkStepNonEmpty(s, d); }
    case RoleStep(d) => RoleStepNonEmpty(s, d);
  }

  const Guest := RegisterStep(Registration("k2", true, "bob", "", Quiescent, true, 0, []))
  const Club := NetworkStep(OpCreate(1, "club", "invite", "", true, true))
  const Letter := NetworkStep(OpInvite(1, 1, 2, 0, false, true))
  const LatePoll := NetworkStep(OpPoll(2, INVITE_TTL + 1, true))

  const Pair := State(
    map[1 := Node("k1", "alice", "", [0], 0, Quiescent, true), 2 := Node("k2", "bob", "", [0], 0, Quiescent, true)],
    map[0 := Network("backbone", "open", "", false, 0, [1, 2], map[])],
    map["k1" := 1, "k2" := 2], map["alice" := 1, "bob" := 2], map[], map[], 3, 1, 1_000_000)

  const Opened := Pair.(
    nodes := Pair.nodes[1 := Pair.nodes[1].(networks := [0, 1])],
    networks := Pair.networks[1 := Network("club", "invite", "", true, 0, [1], map[1 := Owner])],
    nextNet := 2)

  lemma GuestStep()
    ensures Enabled(Registered, Guest) && Apply(Registered, Guest) == Pair
  {
    var a := Apply(Registered, Guest);
    assert [1] + [2] == [1, 2];
    assert a.nodes == Pair.nodes;
    assert a.networks == Pair.networks;
    assert a.pubKeyIdx == Pair.pubKeyIdx && a.ownerIdx == Pair.ownerIdx;
  }

  lemma ClubStep()
    ensures Apply(Pair, Club) == Opened
  {
    var a := Apply(Pair, Club);
    assert [0] + [1] == [0, 1];
    assert a.nodes == Opened.nodes && a.networks == Opened.networks;
  }

  lemma LetterStep()
    ensures Apply(Opened, Letter) == Opened.(invites := map[2 := [Invite(1, 1, 0)]])
  {
    var none: seq<Invite> := [];
    assert none + [Invite(1, 1, 0)] == [Invite(1, 1, 0)];
  }

  const Sent := Opened.(invites := map[2 := [Invite(1, 1, 0)]])

  lemma LatePollStep()
    ensures Apply(Sent, LatePoll) == Sent.(invites := map[2 := []])
  {
    assert [Invite(1, 1, 0)][1..] == [];
    assert Invite(1, 1, 0) in InboxOf(Sent, 2) && Expired(Invite(1, 1, 0), INVITE_TTL + 1);
    assert KeepInvites([Invite(1, 1, 0)], (i: Invite) => !Expired(i, INVITE_TTL + 1)) == [];
  }

  lemma LateTail()
    ensures Legal(Pair, [Club, Letter, LatePoll]) && Run(Pair, [Club, Letter, LatePoll]) == Apply(Sent, LatePoll)
  {
    ClubStep();
    LetterStep();
    LatePollStep();
    RunThree(Pair, Club, Opened, Letter, Sent, LatePoll);
  }

  /** Two steps before a run. */
  lemma RunAfterTwo(s: State, a: Op, t: State, b: Op, u: State, tail: seq<Op>)
    requires 0 in s.networks && Enabled(s, a) && Apply(s, a) == t
    requires 0 in t.networks && Enabled(t, b) && Apply(t, b) == u && Legal(u, tail)
    ensures Legal(s, [a] + ([b] + tail)) && Run(s, [a] + ([b] + tail)) == Run(u, tail)
  {
    RunOne(t, b, tail);
    RunOne(s, a, [b] + tail);
  }

  lemma LateRun()
    ensures var ops := [First] + ([Guest] + [Club, Letter, LatePoll]);
            Legal(Initial, ops) && Run(Initial, ops) == Apply(Sent, LatePoll)
  {
    FirstStep();
    GuestStep();
    LateTail();
    RunAfterTwo(Initial, First, Registered, Guest, Pair, [Club, Letter, LatePoll]);
  }

  /** An invite that is never answered, polled after its lifetime, leaves an empty inbox. */
  lemma LatePollEmpties()
    ensures Legal(Initial, [First, Guest, Club, Letter, LatePoll])
    ensures Run(Initial, [First, Guest, Club, Letter, LatePoll]).invites == map[2 := []]
  {
    LateRun();
    LatePollStep();
    assert [First] + ([Guest] + [Club, Letter, LatePoll]) == [First, Guest, Club, Letter, LatePoll];
  }
}
