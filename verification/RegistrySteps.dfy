/** Every remaining handler keeps the registry invariant. */
module RegistrySteps {
  import opened Options
  import opened Registry
  import opened RegistryInvariants

  // --- nodes leaving -----------------------------------------------------------------

  /** `t` is `s` without the live node `id`; networks may have lost entries for `id` only. */
  ghost predicate NodeGone(s: State, t: State, id: NodeId) {
    && t.nodes == s.nodes - {id}
    && t.networks.Keys == s.networks.Keys
    && t.nextNode == s.nextNode && t.nextNet == s.nextNet
    && t.pubKeyIdx == s.pubKeyIdx && t.ownerIdx == s.ownerIdx
    && (forall k :: k in s.networks ==>
          && (t.networks[k].members == s.networks[k].members
              || t.networks[k].members == RemoveFirst(s.networks[k].members, id))
          && (t.networks[k].roles == s.networks[k].roles || t.networks[k].roles == s.networks[k].roles - {id})
          && (k != 0 && t.networks[k].members != s.networks[k].members ==> id !in t.networks[k].roles)
          && t.networks[k].enterprise == s.networks[k].enterprise)
  }

  lemma NodeGoneAgrees(s: State, t: State, id: NodeId)
    requires Agree(s) && NodeGone(s, t, id)
    ensures Agree(t) && (Tight(s) ==> Tight(t))
  {
    forall n, k | Points(t, n, k) ensures Lists(t, k, n) {
      assert Points(s, n, k);
      assert Lists(s, k, n);
    }
    if Tight(s) {
      forall k | k in t.networks ensures NoDup(t.networks[k].members) {
        RemoveFirstNoDup(s.networks[k].members, id);
      }
      forall n, k | n in t.nodes && Lists(t, k, n) ensures Points(t, n, k) {
        assert Lists(s, k, n);
        assert Points(s, n, k);
      }
    }
  }

  lemma NodeGoneRoles(s: State, t: State, id: NodeId)
    requires RolesOk(s) && NodeGone(s, t, id)
    ensures RolesOk(t)
  {
    forall k, n | Ranks(t, k, n) && k != 0 ensures Lists(t, k, n) {
      assert Ranks(s, k, n);
      assert Lists(s, k, n);
    }
    forall k | k in t.networks ensures OneOwnerAtMost(t.networks[k].roles) {
      assert OneOwnerAtMost(s.networks[k].roles);
    }
  }

  lemma NodeGoneIssued(s: State, t: State, id: NodeId)
    requires IdsIssued(s) && NodeGone(s, t, id)
    requires forall h :: h in t.hostnameIdx ==> h in s.hostnameIdx && t.hostnameIdx[h] == s.hostnameIdx[h]
    ensures IdsIssued(t)
  {
    forall k, n | Lists(t, k, n) ensures Issued(t, n) { assert Lists(s, k, n); }
    forall k, n | Ranks(t, k, n) ensures Issued(t, n) { assert Ranks(s, k, n); }
  }

  lemma HostGone(s: State, t: State, id: NodeId)
    requires HostsInverse(s) && id in s.nodes && t.nodes == s.nodes - {id}
    requires t.hostnameIdx == if s.nodes[id].hostname != "" then s.hostnameIdx - {s.nodes[id].hostname} else s.hostnameIdx
    ensures HostsInverse(t)
  {
  }

  lemma NodeGoneKeeps(s: State, t: State, id: NodeId)
    requires Inv(s) && NodeGone(s, t, id) && id in s.nodes
    requires t.hostnameIdx == if s.nodes[id].hostname != "" then s.hostnameIdx - {s.nodes[id].hostname} else s.hostnameIdx
    ensures Inv(t) && (Tight(s) ==> Tight(t))
  {
    NodeGoneAgrees(s, t, id);
    NodeGoneRoles(s, t, id);
    NodeGoneIssued(s, t, id);
    HostGone(s, t, id);
  }

  lemma DeregisterGone(s: State, id: NodeId)
    requires Agree(s) && id in s.nodes
    ensures NodeGone(s, Deregister(s, id, true), id)
  {
    var t := Deregister(s, id, true);
    forall k | k in s.networks
      ensures t.networks[k] == (var net := s.networks[k];
        if k in s.nodes[id].networks then net.(members := RemoveFirst(net.members, id), roles := net.roles - {id}) else net)
    {
      DropFromNetworksAt(s, id, s.nodes[id].networks, k);
    }
  }

  lemma DeregisterKeeps(s: State, id: NodeId, authorized: bool)
    requires Inv(s)
    ensures var t := Deregister(s, id, authorized); Inv(t) && (Tight(s) ==> Tight(t))
  {
    if id in s.nodes && authorized {
      DeregisterGone(s, id);
      NodeGoneKeeps(s, Deregister(s, id, true), id);
    }
  }

  lemma ReapKeeps(s: State, id: NodeId, threshold: int)
    requires Inv(s)
    ensures var t := Reap(s, id, threshold); Inv(t) && (Tight(s) ==> Tight(t))
  {
    if id in s.nodes && s.nodes[id].lastSeen < threshold {
      NodeGoneKeeps(s, Reap(s, id, threshold), id);
    }
  }

  // --- node fields -------------------------------------------------------------------

  lemma SetHostnameKeeps(s: State, id: NodeId, hostname: string, authorized: bool)
    requires Inv(s)
    ensures var t := SetHostname(s, id, hostname, authorized); Inv(t) && (Tight(s) ==> Tight(t))
  {
    if SetHostname(s, id, hostname, authorized) != s {
      ReplaceHostnameKeeps(s, id, hostname);
    }
  }

  lemma HeartbeatKeeps(s: State, id: NodeId, now: int, authorized: bool)
    requires Inv(s)
    ensures var t := Heartbeat(s, id, now, authorized); Inv(t) && (Tight(s) ==> Tight(t))
  {
    var t := Heartbeat(s, id, now, authorized);
    assert HostsInverse(t);
    assert forall n :: Issued(t, n) == Issued(s, n);
    QuietKeeps(s, t);
  }

  lemma WithNodeQuiet(s: State, id: NodeId, n: Node)
    requires HostsInverse(s) && IndicesIssued(s) && id in s.nodes
    requires n.networks == s.nodes[id].networks && n.hostname == s.nodes[id].hostname
    ensures var t := WithNode(s, id, n); Quiet(s, t) && HostsInverse(t) && IndicesIssued(t)
  {
    assert forall m :: Issued(WithNode(s, id, n), m) == Issued(s, m);
  }

  lemma RotateKeyQuiet(s: State, id: NodeId, expected: Option<string>, key: string, now: int)
    requires HostsInverse(s) && IndicesIssued(s)
    ensures var t := RotateKey(s, id, expected, key, now); Quiet(s, t) && HostsInverse(t) && IndicesIssued(t)
  {
    if id in s.nodes { WithNodeQuiet(s, id, s.nodes[id].(key := key, lastSeen := now)); }
  }

  lemma RotateKeyKeeps(s: State, id: NodeId, expected: Option<string>, key: string, now: int)
    requires Inv(s)
    ensures var t := RotateKey(s, id, expected, key, now); Inv(t) && (Tight(s) ==> Tight(t))
  {
    RotateKeyQuiet(s, id, expected, key, now);
    QuietKeeps(s, RotateKey(s, id, expected, key, now));
  }

  lemma IndexRotationKeeps(s: State, id: NodeId, prev: string, key: string)
    requires Inv(s) && Issued(s, id)
    ensures var t := IndexRotation(s, id, prev, key); Inv(t) && (Tight(s) ==> Tight(t))
  {
    var t := IndexRotation(s, id, prev, key);
    assert forall n :: Issued(t, n) == Issued(s, n);
    assert forall p :: p in t.pubKeyIdx ==> t.pubKeyIdx[p] == id || (p in s.pubKeyIdx && t.pubKeyIdx[p] == s.pubKeyIdx[p]);
    RegrownKeeps(s, t);
  }

  // --- networks ----------------------------------------------------------------------

  function Created(s: State, id: NodeId, net: Network): State
    requires id in s.nodes
  {
    WithNode(WithNetwork(s, s.nextNet, net).(nextNet := (s.nextNet + 1) % NET_LIMIT),
             id, s.nodes[id].(networks := s.nodes[id].networks + [s.nextNet]))
  }

  ghost predicate FoundedBy(net: Network, id: NodeId) {
    net.members == [id] && net.roles == map[id := Owner]
  }

  lemma CreatedAgrees(s: State, id: NodeId, net: Network)
    requires Agree(s) && id in s.nodes && s.nextNet !in s.networks && FoundedBy(net, id)
    ensures Agree(Created(s, id, net)) && (Tight(s) ==> Tight(Created(s, id, net)))
  {
    var t := Created(s, id, net);
    assert Points(s, id, s.nextNet) ==> Lists(s, s.nextNet, id);
    AppendNoDup(s.nodes[id].networks, s.nextNet);
    forall n, k | Points(t, n, k) ensures Lists(t, k, n) {
      if !(n == id && k == s.nextNet) {
        assert Points(s, n, k);
        assert Lists(s, k, n);
      }
    }
    if Tight(s) {
      forall n, k | n in t.nodes && Lists(t, k, n) ensures Points(t, n, k) {
        if k != s.nextNet {
          assert Lists(s, k, n);
          assert Points(s, n, k);
        }
      }
    }
  }

  lemma CreatedIssued(s: State, id: NodeId, net: Network)
    requires IdsIssued(s) && id in s.nodes && s.nextNet != 0 && FoundedBy(net, id)
    ensures IdsIssued(Created(s, id, net))
  {
    var t := Created(s, id, net);
    forall k, n | Lists(t, k, n) ensures Issued(t, n) {
      if k != s.nextNet { assert Lists(s, k, n); }
    }
    forall k, n | Ranks(t, k, n) ensures Issued(t, n) {
      if k != s.nextNet { assert Ranks(s, k, n); }
    }
  }

  lemma CreatedRoles(s: State, id: NodeId, net: Network)
    requires RolesOk(s) && id in s.nodes && s.nextNet != 0 && FoundedBy(net, id)
    ensures RolesOk(Created(s, id, net))
  {
    var t := Created(s, id, net);
    forall k, n | Ranks(t, k, n) && k != 0 ensures Lists(t, k, n) {
      if k != s.nextNet {
        assert Ranks(s, k, n);
        assert Lists(s, k, n);
      }
    }
  }

  lemma CreateKeeps(s: State, id: NodeId, name: string, joinRule: string, token: string, enterprise: bool, authorized: bool)
    requires Inv(s)
    ensures var t := CreateNetwork(s, id, name, joinRule, token, enterprise, authorized); Inv(t) && (Tight(s) ==> Tight(t))
  {
    var t := CreateNetwork(s, id, name, joinRule, token, enterprise, authorized);
    if t != s {
      var rule := if joinRule == "" then "open" else joinRule;
      var net := Network(name, rule, token, enterprise, 0, [id], map[id := Owner]);
      assert t == Created(s, id, net);
      CreatedAgrees(s, id, net);
      CreatedIssued(s, id, net);
      CreatedRoles(s, id, net);
      assert HostsInverse(t);
    }
  }

  lemma JoinKeeps(s: State, id: NodeId, k: NetId, token: string, authorized: bool)
    requires Inv(s)
    ensures var t := Join(s, id, k, token, authorized); Inv(t) && (Tight(s) ==> Tight(t))
  {
    if authorized && JoinAllowed(s, id, k, token) { LinkKeeps(s, id, k); }
  }

  lemma LeaveKeeps(s: State, id: NodeId, k: NetId, authorized: bool)
    requires Inv(s)
    ensures var t := Leave(s, id, k, authorized); Inv(t) && (Tight(s) ==> Tight(t))
  {
    if authorized && LeaveAllowed(s, id, k) {
      UnlinkKeeps(s, id, k);
      InvitesIrrelevant(Unlink(s, id, k), Leave(s, id, k, authorized).invites);
    }
  }

  /** `t` is `s` without network `k`; only members of `k` lost an entry, namely `k`. */
  ghost predicate NetworkGone(s: State, t: State, k: NetId) {
    && k in s.networks && t.networks == s.networks - {k} && t.nodes.Keys == s.nodes.Keys
    && t.nextNode == s.nextNode && t.nextNet == s.nextNet
    && t.pubKeyIdx == s.pubKeyIdx && t.ownerIdx == s.ownerIdx && t.hostnameIdx == s.hostnameIdx
    && (forall n :: n in s.nodes && n in s.networks[k].members ==>
          t.nodes[n] == s.nodes[n].(networks := RemoveFirst(s.nodes[n].networks, k)))
    && (forall n :: n in s.nodes && n !in s.networks[k].members ==> t.nodes[n] == s.nodes[n])
  }

  lemma NetworkGoneAgrees(s: State, t: State, k: NetId)
    requires Agree(s) && NetworkGone(s, t, k)
    ensures Agree(t) && (Tight(s) ==> Tight(t)) && forall n :: !Points(t, n, k)
  {
    forall n | n in t.nodes ensures NoDup(t.nodes[n].networks) && k !in t.nodes[n].networks {
      RemoveFirstNoDup(s.nodes[n].networks, k);
      if Points(s, n, k) { assert Lists(s, k, n); }
    }
    forall n, j | Points(t, n, j) ensures Lists(t, j, n) {
      assert Points(s, n, j);
      assert Lists(s, j, n);
    }
    if Tight(s) {
      forall n, j | n in t.nodes && Lists(t, j, n) ensures Points(t, n, j) {
        assert Lists(s, j, n);
        assert Points(s, n, j);
      }
    }
  }

  lemma NetworkGoneIssued(s: State, t: State, k: NetId)
    requires IdsIssued(s) && NetworkGone(s, t, k)
    ensures IdsIssued(t)
  {
    forall j, n | Lists(t, j, n) ensures Issued(t, n) { assert Lists(s, j, n); }
    forall j, n | Ranks(t, j, n) ensures Issued(t, n) { assert Ranks(s, j, n); }
  }

  lemma NetworkGoneRoles(s: State, t: State, k: NetId)
    requires RolesOk(s) && NetworkGone(s, t, k) && k != 0
    ensures RolesOk(t)
  {
    forall j, n | Ranks(t, j, n) && j != 0 ensures Lists(t, j, n) {
      assert Ranks(s, j, n);
      assert Lists(s, j, n);
    }
  }

  lemma NetworkGoneKeeps(s: State, t: State, k: NetId)
    requires Inv(s) && NetworkGone(s, t, k) && k != 0
    ensures Inv(t) && (Tight(s) ==> Tight(t)) && forall n :: !Points(t, n, k)
  {
    NetworkGoneAgrees(s, t, k);
    NetworkGoneIssued(s, t, k);
    NetworkGoneRoles(s, t, k);
    assert HostsInverse(t);
  }

  lemma DeleteGone(s: State, k: NetId)
    requires Agree(s) && k in s.networks && k != 0
    ensures NetworkGone(s, DeleteNetwork(s, k, true), k)
  {
    forall n | n in s.nodes
      ensures DeleteNetwork(s, k, true).nodes[n] ==
        if n in s.networks[k].members then s.nodes[n].(networks := RemoveFirst(s.nodes[n].networks, k)) else s.nodes[n]
    {
      DropNodeNetworksAt(s, s.networks[k].members, k, n);
    }
  }

  lemma NobodyPoints(s: State, k: NetId)
    requires Agree(s) && k !in s.networks
    ensures forall n :: !Points(s, n, k)
  {
    forall n ensures !Points(s, n, k) { assert Points(s, n, k) ==> Lists(s, k, n); }
  }

  /** Deleting a network keeps the invariant and leaves no live node pointing at it. */
  lemma DeleteKeeps(s: State, k: NetId, authorized: bool)
    requires Inv(s)
    ensures var t := DeleteNetwork(s, k, authorized);
            && Inv(t) && (Tight(s) ==> Tight(t))
            && (k != 0 && authorized ==> k !in t.networks && forall n :: !Points(t, n, k))
  {
    var t := DeleteNetwork(s, k, authorized);
    if k != 0 && authorized {
      if k in s.networks {
        DeleteGone(s, k);
        NetworkGoneKeeps(s, t, k);
      } else {
        NobodyPoints(s, k);
      }
    }
  }

  // --- roles -------------------------------------------------------------------------

  /** Only the roles and the enterprise flag of network `k` change. */
  ghost predicate RolesChanged(s: State, t: State, k: NetId) {
    && k in s.networks && k in t.networks
    && t == WithNetwork(s, k, s.networks[k].(roles := t.networks[k].roles, enterprise := t.networks[k].enterprise))
  }

  lemma RolesChangedKeeps(s: State, t: State, k: NetId)
    requires Inv(s) && RolesChanged(s, t, k)
    requires OneOwnerAtMost(t.networks[k].roles)
    requires forall n :: n in t.networks[k].roles ==> n in s.networks[k].members || n in s.networks[k].roles
    requires k == 0 ==> !t.networks[k].enterprise && !HasOwner(t.networks[k].roles)
    ensures Inv(t) && (Tight(s) ==> Tight(t))
  {
    assert forall n, j :: Points(t, n, j) == Points(s, n, j);
    assert forall j, n :: Lists(t, j, n) == Lists(s, j, n);
    assert forall n :: Issued(t, n) == Issued(s, n);
    forall j, n | Ranks(t, j, n) ensures Issued(t, n) && (j != 0 ==> Lists(t, j, n)) {
      assert Ranks(s, j, n) || Lists(s, j, n);
    }
  }

  lemma SetEnterpriseKeeps(s: State, k: NetId, enterprise: bool, authorized: bool)
    requires Inv(s)
    ensures var t := SetEnterprise(s, k, enterprise, authorized); Inv(t) && (Tight(s) ==> Tight(t))
  {
    var t := SetEnterprise(s, k, enterprise, authorized);
    if k != 0 && authorized && k in s.networks {
      var net := s.networks[k];
      AssignRolesKeeps(net.members, net.roles, HasOwner(net.roles));
      RolesChangedKeeps(s, t, k);
    }
  }

  lemma ChangeRoleKeeps(s: State, k: NetId, target: NodeId, from: Role, to: Role, authorized: bool)
    requires Inv(s) && to != Owner
    ensures var t := ChangeRole(s, k, target, from, to, authorized); Inv(t) && (Tight(s) ==> Tight(t))
  {
    var t := ChangeRole(s, k, target, from, to, authorized);
    if t != s {
      assert OneOwnerAtMost(s.networks[k].roles);
      RolesChangedKeeps(s, t, k);
    }
  }

  lemma TransferKeeps(s: State, k: NetId, next: NodeId, current: NodeId, authorized: bool)
    requires Inv(s)
    ensures var t := Transfer(s, k, next, current, authorized); Inv(t) && (Tight(s) ==> Tight(t))
  {
    var t := Transfer(s, k, next, current, authorized);
    if t != s {
      assert OneOwnerAtMost(s.networks[k].roles);
      RolesChangedKeeps(s, t, k);
    }
  }

  lemma AdminSetRoleKeeps(s: State, k: NetId, id: NodeId, role: Role)
    requires Inv(s)
    ensures var t := AdminSetRole(s, k, id, role); Inv(t) && (Tight(s) ==> Tight(t))
  {
    var t := AdminSetRole(s, k, id, role);
    if t != s {
      assert OneOwnerAtMost(s.networks[k].roles);
      RolesChangedKeeps(s, t, k);
    }
  }

  // --- invites and kicks ---------------------------------------------------------------

  lemma InviteKeeps(s: State, inviter: NodeId, k: NetId, target: NodeId, now: int, operator: bool, authorized: bool)
    requires Inv(s)
    ensures var t := InviteTo(s, inviter, k, target, now, operator, authorized); Inv(t) && (Tight(s) ==> Tight(t))
  {
    InvitesIrrelevant(s, InviteTo(s, inviter, k, target, now, operator, authorized).invites);
  }

  lemma PollKeeps(s: State, id: NodeId, now: int, authorized: bool)
    requires Inv(s)
    ensures var t := PollInvites(s, id, now, authorized); Inv(t) && (Tight(s) ==> Tight(t))
  {
    InvitesIrrelevant(s, PollInvites(s, id, now, authorized).invites);
  }

  lemma RespondKeeps(s: State, id: NodeId, k: NetId, accept: bool, now: int, authorized: bool)
    requires Inv(s)
    ensures var t := RespondInvite(s, id, k, accept, now, authorized); Inv(t) && (Tight(s) ==> Tight(t))
  {
    var t := RespondInvite(s, id, k, accept, now, authorized);
    if accept && AcceptAllowed(s, id, k) {
      assert k != 0;
      LinkKeeps(s, id, k);
      InvitesIrrelevant(Link(s, id, k), t.invites);
    }
    InvitesIrrelevant(s, t.invites);
  }

  lemma DropsCommute(s: State, id: NodeId, k: NetId)
    requires k in s.networks
    ensures DropNodeNetwork(DropMember(s, k, id), id, k) == Unlink(s, id, k)
  {
  }

  lemma KickKeeps(s: State, k: NetId, target: NodeId, caller: NodeId, authorized: bool)
    requires Inv(s)
    ensures var t := Kick(s, k, target, caller, authorized); Inv(t) && (Tight(s) ==> Tight(t))
  {
    var t := Kick(s, k, target, caller, authorized);
    if t != s {
      DropsCommute(s, target, k);
      UnlinkKeeps(s, target, k);
      InvitesIrrelevant(Unlink(s, target, k), t.invites);
    }
  }

  lemma AdminKickKeeps(s: State, k: NetId, id: NodeId)
    requires Inv(s)
    ensures var t := AdminKick(s, k, id); Inv(t) && (Tight(s) ==> Tight(t))
  {
    var t := AdminKick(s, k, id);
    if t != s {
      if id in s.nodes { RemoveAllNoDup(s.nodes[id].networks, k); }
      DropsCommute(s, id, k);
      UnlinkKeeps(s, id, k);
      assert t == Unlink(s, id, k);
    }
  }
}
