/** What every step of the registry keeps, and what follows over whole runs. */
module RegistryInvariants {
  import opened Registry

  // --- the invariant -----------------------------------------------------------

  ghost predicate Points(s: State, n: NodeId, k: NetId) {
    n in s.nodes && k in s.nodes[n].networks
  }

  ghost predicate Lists(s: State, k: NetId, n: NodeId) {
    k in s.networks && n in s.networks[k].members
  }

  ghost predicate Ranks(s: State, k: NetId, n: NodeId) {
    k in s.networks && n in s.networks[k].roles
  }

  /** A live node's network list is duplicate-free and names only networks that list it. */
  ghost predicate Agree(s: State) {
    && (forall n, k :: Points(s, n, k) ==> Lists(s, k, n))
    && (forall n :: n in s.nodes ==> NoDup(s.nodes[n].networks))
  }

  /** Every id stored anywhere was handed out by the counter. */
  ghost predicate IdsIssued(s: State) {
    && s.nextNode < NODE_LIMIT && s.nextNet < NET_LIMIT
    && (forall n :: n in s.nodes ==> Issued(s, n))
    && (forall k, n :: Lists(s, k, n) ==> Issued(s, n))
    && (forall k, n :: Ranks(s, k, n) ==> Issued(s, n))
    && (forall h :: h in s.hostnameIdx ==> Issued(s, s.hostnameIdx[h]))
    && (forall p :: p in s.pubKeyIdx ==> Issued(s, s.pubKeyIdx[p]))
    && (forall o :: o in s.ownerIdx ==> Issued(s, s.ownerIdx[o]))
    && (forall k :: k in s.networks ==> k < if s.nextNet == 0 then NET_LIMIT else s.nextNet)
  }

  /** The hostname index is the exact inverse of the live nodes' non-empty hostnames. */
  ghost predicate HostsInverse(s: State) {
    && (forall h :: h in s.hostnameIdx ==>
          h != "" && s.hostnameIdx[h] in s.nodes && s.nodes[s.hostnameIdx[h]].hostname == h)
    && (forall n :: n in s.nodes && s.nodes[n].hostname != "" ==>
          s.nodes[n].hostname in s.hostnameIdx && s.hostnameIdx[s.nodes[n].hostname] == n)
  }

  ghost predicate OneOwnerAtMost(roles: map<NodeId, Role>) {
    forall a, b :: a in roles && b in roles && roles[a] == Owner && roles[b] == Owner ==> a == b
  }

  /** No network has two owners; only members hold roles, except on the backbone,
      which has no owner and is never an enterprise network. */
  ghost predicate RolesOk(s: State) {
    && (forall k :: k in s.networks ==> OneOwnerAtMost(s.networks[k].roles))
    && (forall k, n :: Ranks(s, k, n) && k != 0 ==> Lists(s, k, n))
    && 0 in s.networks && !s.networks[0].enterprise && !HasOwner(s.networks[0].roles)
  }

  ghost predicate Inv(s: State) {
    Agree(s) && IdsIssued(s) && HostsInverse(s) && RolesOk(s)
  }

  /** The converse half of agreement: a live listed node points back, and lists are duplicate-free. */
  ghost predicate Tight(s: State) {
    && (forall n, k :: n in s.nodes && Lists(s, k, n) ==> Points(s, n, k))
    && (forall k :: k in s.networks ==> NoDup(s.networks[k].members))
  }

  // --- building blocks -----------------------------------------------------------

  lemma {:induction false} DropFromNetworksAt(s: State, id: NodeId, networks: seq<NetId>, k: NetId)
    requires NoDup(networks) && k in s.networks
    ensures var net := s.networks[k];
            DropFromNetworks(s, id, networks).networks[k] ==
            if k in networks then net.(members := RemoveFirst(net.members, id), roles := net.roles - {id}) else net
    decreases |networks|
  {
    if networks != [] {
      var s1 := if networks[0] in s.networks then DropMember(s, networks[0], id) else s;
      assert networks[0] !in networks[1..];
      DropFromNetworksAt(s1, id, networks[1..], k);
    }
  }

  lemma {:induction false} DropNodeNetworksAt(s: State, members: seq<NodeId>, k: NetId, n: NodeId)
    requires n in s.nodes && NoDup(s.nodes[n].networks)
    ensures n !in members ==> DropNodeNetworks(s, members, k).nodes[n] == s.nodes[n]
    ensures n in members ==> DropNodeNetworks(s, members, k).nodes[n] ==
                             s.nodes[n].(networks := RemoveFirst(s.nodes[n].networks, k))
    decreases |members|
  {
    if members != [] {
      var s1 := DropNodeNetwork(s, members[0], k);
      RemoveFirstNoDup(s.nodes[n].networks, k);
      if members[0] == n {
        assert s1.nodes[n].networks == RemoveFirst(s.nodes[n].networks, k);
      } else {
        assert s1.nodes[n] == s.nodes[n];
      }
      DropNodeNetworksAt(s1, members[1..], k, n);
    }
  }

  lemma {:induction false} AssignRolesKeeps(members: seq<NodeId>, roles: map<NodeId, Role>, hasOwner: bool)
    requires OneOwnerAtMost(roles) && hasOwner == HasOwner(roles)
    ensures var r := AssignRoles(members, roles, hasOwner);
            && OneOwnerAtMost(r)
            && (forall n :: n in r ==> n in roles || n in members)
            && (forall n :: n in roles ==> n in r && r[n] == roles[n])
            && (forall n :: n in members ==> n in r)
            && (HasOwner(roles) || (exists n :: n in members && n !in roles) ==> HasOwner(r))
    decreases |members|
  {
    if members != [] {
      if members[0] in roles {
        AssignRolesKeeps(members[1..], roles, hasOwner);
      } else {
        var roles' := roles[members[0] := if hasOwner then Member else Owner];
        if hasOwner {
          var o :| o in roles && roles[o] == Owner;
          assert roles'[o] == Owner;
        } else {
          assert roles'[members[0]] == Owner;
        }
        AssignRolesKeeps(members[1..], roles', true);
      }
    }
  }

  lemma RolesFrame(s: State, t: State)
    requires t.networks == s.networks && RolesOk(s)
    ensures RolesOk(t)
  {
    forall k, n | Ranks(t, k, n) && k != 0 ensures Lists(t, k, n) {
      assert Ranks(s, k, n);
      assert Lists(s, k, n);
    }
  }

  /** Steps that touch neither networks nor the nodes' network lists nor the counters. */
  ghost predicate Quiet(s: State, t: State) {
    && t.networks == s.networks && t.nodes.Keys == s.nodes.Keys
    && t.nextNode == s.nextNode && t.nextNet == s.nextNet
    && forall n :: n in s.nodes ==> t.nodes[n].networks == s.nodes[n].networks
  }

  ghost predicate IndicesIssued(s: State) {
    && (forall h :: h in s.hostnameIdx ==> Issued(s, s.hostnameIdx[h]))
    && (forall p :: p in s.pubKeyIdx ==> Issued(s, s.pubKeyIdx[p]))
    && (forall o :: o in s.ownerIdx ==> Issued(s, s.ownerIdx[o]))
  }

  lemma QuietKeeps(s: State, t: State)
    requires Inv(s) && Quiet(s, t) && HostsInverse(t) && IndicesIssued(t)
    ensures Inv(t) && (Tight(s) ==> Tight(t))
  {
    assert forall n, k :: Points(t, n, k) == Points(s, n, k);
    assert forall k, n :: Lists(t, k, n) == Lists(s, k, n);
    assert forall k, n :: Ranks(t, k, n) == Ranks(s, k, n);
    assert forall n :: Issued(t, n) == Issued(s, n);
  }

  lemma LinkAgrees(s: State, id: NodeId, k: NetId)
    requires Agree(s) && id in s.nodes && k in s.networks && k !in s.nodes[id].networks
    ensures Agree(Link(s, id, k))
  {
    var t := Link(s, id, k);
    forall n, j | Points(t, n, j) ensures Lists(t, j, n) {
      if !(n == id && j == k) { assert Points(s, n, j); }
    }
    AppendNoDup(s.nodes[id].networks, k);
  }

  lemma LinkIssued(s: State, id: NodeId, k: NetId)
    requires IdsIssued(s) && id in s.nodes && k in s.networks
    ensures IdsIssued(Link(s, id, k))
  {
    var t := Link(s, id, k);
    forall j, n | Lists(t, j, n) ensures Issued(t, n) {
      if j != k || n != id { assert Lists(s, j, n); }
    }
    forall j, n | Ranks(t, j, n) ensures Issued(t, n) {
      if j != k || n != id { assert Ranks(s, j, n); }
    }
  }

  lemma LinkRoles(s: State, id: NodeId, k: NetId)
    requires RolesOk(s) && id in s.nodes && k in s.networks && k != 0
    ensures RolesOk(Link(s, id, k))
  {
    var t := Link(s, id, k);
    forall j, n | Ranks(t, j, n) && j != 0 ensures Lists(t, j, n) {
      if j != k || n != id { assert Ranks(s, j, n); assert Lists(s, j, n); }
    }
  }

  lemma LinkTight(s: State, id: NodeId, k: NetId)
    requires Tight(s) && id in s.nodes && k in s.networks && k !in s.nodes[id].networks
    ensures Tight(Link(s, id, k)) && id !in s.networks[k].members
  {
    var t := Link(s, id, k);
    assert !Points(s, id, k);
    assert !Lists(s, k, id);
    forall n, j | n in t.nodes && Lists(t, j, n) ensures Points(t, n, j) {
      if !(n == id && j == k) {
        assert Lists(s, j, n);
        assert Points(s, n, j);
      }
    }
    AppendNoDup(s.networks[k].members, id);
  }

  lemma LinkKeeps(s: State, id: NodeId, k: NetId)
    requires Inv(s) && id in s.nodes && k in s.networks && k != 0 && k !in s.nodes[id].networks
    ensures Inv(Link(s, id, k))
    ensures Tight(s) ==> Tight(Link(s, id, k)) && id !in s.networks[k].members
  {
    LinkAgrees(s, id, k);
    LinkIssued(s, id, k);
    LinkRoles(s, id, k);
    assert HostsInverse(Link(s, id, k));
    if Tight(s) { LinkTight(s, id, k); }
  }

  /** Removing the membership entry, the role and the node's own entry together. */
  function Unlink(s: State, id: NodeId, k: NetId): State
    requires k in s.networks
  {
    DropMember(DropNodeNetwork(s, id, k), k, id)
  }

  lemma UnlinkAgrees(s: State, id: NodeId, k: NetId)
    requires Agree(s) && k in s.networks
    ensures Agree(Unlink(s, id, k))
  {
    var t := Unlink(s, id, k);
    if id in s.nodes { RemoveFirstNoDup(s.nodes[id].networks, k); }
    forall n, j | Points(t, n, j) ensures Lists(t, j, n) {
      assert Points(s, n, j);
      assert Lists(s, j, n);
    }
  }

  lemma UnlinkShrinks(s: State, id: NodeId, k: NetId, j: NetId, n: NodeId)
    requires k in s.networks
    ensures Lists(Unlink(s, id, k), j, n) ==> Lists(s, j, n)
    ensures Ranks(Unlink(s, id, k), j, n) ==> Ranks(s, j, n)
  {
  }

  lemma UnlinkIssued(s: State, id: NodeId, k: NetId)
    requires IdsIssued(s) && k in s.networks
    ensures IdsIssued(Unlink(s, id, k))
  {
    var t := Unlink(s, id, k);
    forall j, n ensures Lists(t, j, n) ==> Lists(s, j, n) ensures Ranks(t, j, n) ==> Ranks(s, j, n) {
      UnlinkShrinks(s, id, k, j, n);
    }
    FewerIssued(s, t);
  }

  /** Nothing is listed, ranked or indexed that was not before. */
  lemma FewerIssued(s: State, t: State)
    requires IdsIssued(s) && t.nextNode == s.nextNode && t.nextNet == s.nextNet
    requires t.nodes.Keys <= s.nodes.Keys && t.networks.Keys <= s.networks.Keys
    requires t.hostnameIdx == s.hostnameIdx && t.pubKeyIdx == s.pubKeyIdx && t.ownerIdx == s.ownerIdx
    requires forall j, n :: Lists(t, j, n) ==> Lists(s, j, n)
    requires forall j, n :: Ranks(t, j, n) ==> Ranks(s, j, n)
    ensures IdsIssued(t)
  {
    assert forall n :: Issued(t, n) == Issued(s, n);
  }

  lemma DropMemberRoles(s: State, id: NodeId, k: NetId)
    requires RolesOk(s) && k in s.networks
    ensures RolesOk(DropMember(s, k, id))
  {
    var t := DropMember(s, k, id);
    forall j, n | Ranks(t, j, n) && j != 0 ensures Lists(t, j, n) {
      assert Ranks(s, j, n);
      assert Lists(s, j, n);
    }
  }

  lemma UnlinkTight(s: State, id: NodeId, k: NetId)
    requires Tight(s) && k in s.networks
    ensures Tight(Unlink(s, id, k))
  {
    var t := Unlink(s, id, k);
    RemoveFirstNoDup(s.networks[k].members, id);
    forall n, j | n in t.nodes && Lists(t, j, n) ensures Points(t, n, j) {
      assert Lists(s, j, n);
      assert Points(s, n, j);
    }
  }

  lemma UnlinkKeeps(s: State, id: NodeId, k: NetId)
    requires Inv(s) && k in s.networks
    ensures Inv(Unlink(s, id, k)) && (Tight(s) ==> Tight(Unlink(s, id, k)))
  {
    UnlinkAgrees(s, id, k);
    UnlinkIssued(s, id, k);
    RolesFrame(s, DropNodeNetwork(s, id, k));
    DropMemberRoles(DropNodeNetwork(s, id, k), id, k);
    UnlinkHosts(s, id, k);
    if Tight(s) { UnlinkTight(s, id, k); }
  }

  lemma UnlinkHosts(s: State, id: NodeId, k: NetId)
    requires HostsInverse(s) && k in s.networks
    ensures HostsInverse(Unlink(s, id, k))
  {
  }

  lemma InvitesIrrelevant(s: State, invites: map<NodeId, seq<Invite>>)
    ensures Inv(s.(invites := invites)) == Inv(s) && Tight(s.(invites := invites)) == Tight(s)
  {
    var t := s.(invites := invites);
    assert forall n, k :: Points(t, n, k) == Points(s, n, k);
    assert forall k, n :: Lists(t, k, n) == Lists(s, k, n);
    assert forall k, n :: Ranks(t, k, n) == Ranks(s, k, n);
    assert forall n :: Issued(t, n) == Issued(s, n);
  }

  // --- registration ----------------------------------------------------------------

  lemma ReplaceHostnameHosts(s: State, id: NodeId, hostname: string)
    requires HostsInverse(s) && id in s.nodes
    requires hostname in s.hostnameIdx ==> s.hostnameIdx[hostname] == id
    ensures HostsInverse(ReplaceHostname(s, id, hostname))
  {
  }

  lemma ReplaceHostnameKeeps(s: State, id: NodeId, hostname: string)
    requires Inv(s) && id in s.nodes
    requires hostname in s.hostnameIdx ==> s.hostnameIdx[hostname] == id
    ensures var t := ReplaceHostname(s, id, hostname); Inv(t) && (Tight(s) ==> Tight(t))
  {
    var t := ReplaceHostname(s, id, hostname);
    ReplaceHostnameHosts(s, id, hostname);
    assert forall n :: Issued(t, n) == Issued(s, n);
    QuietKeeps(s, t);
  }

  lemma SetNodeHostnameKeeps(s: State, id: NodeId, hostname: string)
    requires Inv(s) && id in s.nodes
    ensures var t := SetNodeHostname(s, id, hostname); Inv(t) && (Tight(s) ==> Tight(t))
  {
    if SetNodeHostname(s, id, hostname) != s {
      ReplaceHostnameKeeps(s, id, hostname);
    }
  }

  lemma FastPathKeeps(s: State, r: Registration)
    requires Inv(s) && IsKnownLive(s, r.key)
    ensures Inv(FastPath(s, r)) && (Tight(s) ==> Tight(FastPath(s, r)))
  {
    assert forall n :: Issued(FastPath(s, r), n) == Issued(s, n);
    QuietKeeps(s, FastPath(s, r));
  }

  lemma ClaimOwnerHosts(s: State, id: NodeId, owner: string)
    requires HostsInverse(s) && id in s.nodes
    ensures HostsInverse(ClaimOwner(s, id, owner))
  {
  }

  lemma ClaimOwnerIndices(s: State, id: NodeId, owner: string)
    requires IndicesIssued(s) && Issued(s, id) && id in s.nodes
    ensures IndicesIssued(ClaimOwner(s, id, owner)) && Quiet(s, ClaimOwner(s, id, owner))
  {
    var t := ClaimOwner(s, id, owner);
    assert forall o :: o in t.ownerIdx ==> t.ownerIdx[o] == id || (o in s.ownerIdx && t.ownerIdx[o] == s.ownerIdx[o]);
    assert forall n :: Issued(t, n) == Issued(s, n);
  }

  lemma ClaimOwnerKeeps(s: State, id: NodeId, owner: string)
    requires Inv(s) && id in s.nodes
    ensures Inv(ClaimOwner(s, id, owner)) && (Tight(s) ==> Tight(ClaimOwner(s, id, owner)))
  {
    ClaimOwnerHosts(s, id, owner);
    ClaimOwnerIndices(s, id, owner);
    QuietKeeps(s, ClaimOwner(s, id, owner));
  }

  lemma RefreshKeeps(s: State, r: Registration)
    requires Inv(s) && IsKnownLive(s, r.key)
    ensures Inv(FastPath(s, r)) && (Tight(s) ==> Tight(FastPath(s, r)))
    ensures Inv(SlowPath(s, r)) && (Tight(s) ==> Tight(SlowPath(s, r)))
  {
    var id := s.pubKeyIdx[r.key];
    FastPathKeeps(s, r);
    ClaimOwnerKeeps(FastPath(s, r), id, r.owner);
    SetNodeHostnameKeeps(ClaimOwner(FastPath(s, r), id, r.owner), id, r.hostname);
  }

  /** The networks given to a revived node: the backbone and only networks that list it. */
  ghost predicate Restorable(s: State, id: NodeId, networks: seq<NetId>) {
    && NoDup(networks) && 0 in networks
    && forall k :: k in networks && k != 0 ==> Lists(s, k, id)
  }

  ghost predicate RestoresAll(s: State, id: NodeId, networks: seq<NetId>) {
    forall k :: Lists(s, k, id) ==> k in networks
  }

  function Bare(s: State, r: Registration, id: NodeId, networks: seq<NetId>): State
    requires 0 in s.networks
  {
    AddToBackbone(WithNode(s, id, FreshNode(r, networks)), id)
  }

  lemma BareAgrees(s: State, r: Registration, id: NodeId, networks: seq<NetId>)
    requires Agree(s) && 0 in s.networks && id !in s.nodes && Restorable(s, id, networks)
    ensures Agree(Bare(s, r, id, networks))
  {
    var t := Bare(s, r, id, networks);
    forall n, k | Points(t, n, k) ensures Lists(t, k, n) {
      if n != id {
        assert Points(s, n, k);
        assert Lists(s, k, n);
      } else if k != 0 {
        assert Lists(s, k, n);
      }
    }
  }

  lemma BareIssued(s: State, r: Registration, id: NodeId, networks: seq<NetId>)
    requires IdsIssued(s) && 0 in s.networks && Issued(s, id)
    ensures IdsIssued(Bare(s, r, id, networks))
  {
    var t := Bare(s, r, id, networks);
    forall k, n | Lists(t, k, n) ensures Issued(t, n) {
      if n != id { assert Lists(s, k, n); }
    }
    forall k, n | Ranks(t, k, n) ensures Issued(t, n) { assert Ranks(s, k, n); }
  }

  lemma BareRoles(s: State, r: Registration, id: NodeId, networks: seq<NetId>)
    requires RolesOk(s)
    ensures RolesOk(Bare(s, r, id, networks))
  {
    var t := Bare(s, r, id, networks);
    forall k, n | Ranks(t, k, n) && k != 0 ensures Lists(t, k, n) {
      assert Ranks(s, k, n);
      assert Lists(s, k, n);
    }
  }

  lemma BareTight(s: State, r: Registration, id: NodeId, networks: seq<NetId>)
    requires Tight(s) && 0 in s.networks && id !in s.nodes && 0 in networks && RestoresAll(s, id, networks)
    ensures Tight(Bare(s, r, id, networks))
  {
    var t := Bare(s, r, id, networks);
    forall n, k | n in t.nodes && Lists(t, k, n) ensures Points(t, n, k) {
      if n != id {
        assert Lists(s, k, n);
        assert Points(s, n, k);
      } else if k != 0 {
        assert Lists(s, k, n);
      }
    }
    if id !in s.networks[0].members { AppendNoDup(s.networks[0].members, id); }
  }

  lemma ReviveKeeps(s: State, r: Registration, id: NodeId, networks: seq<NetId>)
    requires Inv(s) && id !in s.nodes && Issued(s, id) && Restorable(s, id, networks)
    ensures var t := Revive(s, r, id, networks);
            Inv(t) && (Tight(s) && RestoresAll(s, id, networks) ==> Tight(t))
  {
    var b := Bare(s, r, id, networks);
    BareAgrees(s, r, id, networks);
    BareIssued(s, r, id, networks);
    BareRoles(s, r, id, networks);
    assert HostsInverse(b);
    if Tight(s) && RestoresAll(s, id, networks) { BareTight(s, r, id, networks); }
    SetNodeHostnameKeeps(b, id, r.hostname);
  }

  /** Growing the indices with issued ids, or moving the counter past an unused id. */
  ghost predicate Regrown(s: State, t: State) {
    && t.nodes == s.nodes && t.networks == s.networks && t.hostnameIdx == s.hostnameIdx
    && t.nextNet == s.nextNet && t.nextNode < NODE_LIMIT && Bound(s) <= Bound(t)
  }

  lemma RegrownKeeps(s: State, t: State)
    requires Inv(s) && Regrown(s, t) && IndicesIssued(t)
    ensures Inv(t) && (Tight(s) ==> Tight(t))
  {
    assert forall n, k :: Points(t, n, k) == Points(s, n, k);
    assert forall k, n :: Lists(t, k, n) == Lists(s, k, n);
    assert forall k, n :: Ranks(t, k, n) == Ranks(s, k, n);
    assert forall n :: Issued(s, n) ==> Issued(t, n);
  }

  lemma KeyReclaimKeeps(s: State, r: Registration)
    requires Inv(s) && r.key in s.pubKeyIdx && s.pubKeyIdx[r.key] !in s.nodes
    requires IsScan(s, s.pubKeyIdx[r.key], r.scan)
    ensures Inv(KeyReclaim(s, r)) && (Tight(s) ==> Tight(KeyReclaim(s, r)))
  {
    var id := s.pubKeyIdx[r.key];
    var s1 := if r.owner != "" then s.(ownerIdx := s.ownerIdx[r.owner := id]) else s;
    assert forall n :: Issued(s1, n) == Issued(s, n);
    RegrownKeeps(s, s1);
    var networks := [0] + r.scan;
    forall k | k in networks && k != 0 ensures Lists(s1, k, id) { assert k in r.scan; }
    forall k | Lists(s1, k, id) ensures k in networks { assert k == 0 || k in r.scan; }
    assert 0 in networks;
    ReviveKeeps(s1, r, id, networks);
  }

  lemma OwnerReclaimKeeps(s: State, r: Registration)
    requires Inv(s) && r.owner in s.ownerIdx && s.ownerIdx[r.owner] !in s.nodes
    ensures Inv(OwnerReclaim(s, r))
    ensures Tight(s) && (forall k :: Lists(s, k, s.ownerIdx[r.owner]) ==> k == 0) ==> Tight(OwnerReclaim(s, r))
  {
    var id := s.ownerIdx[r.owner];
    var s1 := s.(pubKeyIdx := s.pubKeyIdx[r.key := id]);
    assert forall n :: Issued(s1, n) == Issued(s, n);
    RegrownKeeps(s, s1);
    assert forall k :: Lists(s1, k, id) == Lists(s, k, id);
    ReviveKeeps(s1, r, id, [0]);
  }

  /** Owner-based reclaim keeps the converse half exactly when no network but the
      backbone lists the id it revives. */
  lemma OwnerReclaimTightExactly(s: State, r: Registration)
    requires Inv(s) && Tight(s) && r.owner in s.ownerIdx && s.ownerIdx[r.owner] !in s.nodes
    ensures Tight(OwnerReclaim(s, r)) <==> forall k :: Lists(s, k, s.ownerIdx[r.owner]) ==> k == 0
  {
    var id := s.ownerIdx[r.owner];
    OwnerReclaimKeeps(s, r);
    var t := OwnerReclaim(s, r);
    if k :| Lists(s, k, id) && k != 0 {
      assert t.nodes[id].networks == [0];
      assert Lists(t, k, id) && !Points(t, id, k);
    }
  }

  lemma AllocateKeeps(s: State, r: Registration)
    requires Inv(s) && s.nextNode != 0
    ensures Inv(Allocate(s, r)) && (Tight(s) ==> Tight(Allocate(s, r)))
  {
    var id := s.nextNode;
    var s1 := Reserve(s, r);
    assert Bound(s1) == id + 1;
    assert !Issued(s, id) && forall n :: Issued(s, n) ==> Issued(s1, n);
    RegrownKeeps(s, s1);
    forall k ensures !Lists(s1, k, id) { assert Lists(s1, k, id) == Lists(s, k, id); }
    ReviveKeeps(s1, r, id, [0]);
  }

  lemma RegisterKeeps(s: State, r: Registration)
    requires Inv(s) && RegisterEnabled(s, r)
    ensures Inv(Register(s, r))
    ensures Tight(s) && RegisterPath(s, r) != OwnerReclaimed ==> Tight(Register(s, r))
  {
    match RegisterPath(s, r)
    case Rejected =>
    case Refreshed => RefreshKeeps(s, r);
    case KeyReclaimed => KeyReclaimKeeps(s, r);
    case OwnerReclaimed => OwnerReclaimKeeps(s, r);
    case Allocated => AllocateKeeps(s, r);
  }
}
