/** What a replayed entry does to every node, every network and the identity indices, told from
    the entry and the state before. */
module ReplayLaws {
  import opened Registry
  import opened DeltaReplay

  /** The node is as the entry of its registration has it, alone on the backbone, unsigned, and
      reachable directly: an entry has no relay-only flag. */
  predicate AsEntered(e: Entry, n: Node)
    requires e.RegisterEntry?
  {
    && n.key == e.key && n.owner == e.owner && n.hostname == e.hostname && n.lastSeen == e.at
    && n.networks == [0] && !n.sigVerified
    && n.endpoint == Endpoint(e.endpoint.addr, e.endpoint.lan, e.endpoint.version, false)
  }

  /** A rotation replaces the key; memberships aside, nothing else is ever replayed onto a node. */
  predicate AsKept(e: Entry, id: NodeId, before: Node, n: Node) {
    && n.key == (if e.RotateEntry? && e.id == id then e.key else before.key)
    && n.owner == before.owner && n.hostname == before.hostname && n.lastSeen == before.lastSeen
    && n.endpoint == before.endpoint && n.sigVerified == before.sigVerified
  }

  ghost predicate NodeReplayed(s: State, e: Entry, t: State, n: NodeId) {
    && (n in t.nodes <==> (n in s.nodes && e != DeregisterEntry(n)) || (e.RegisterEntry? && e.id == n))
    && (n in s.nodes && n in t.nodes ==> AsKept(e, n, s.nodes[n], t.nodes[n]))
    && (n !in s.nodes && n in t.nodes ==> e.RegisterEntry? && AsEntered(e, t.nodes[n]))
  }

  /** Name, join rule, token, policy and size limit. */
  predicate SameTerms(a: Network, b: Network) {
    && a.name == b.name && a.joinRule == b.joinRule && a.token == b.token
    && a.enterprise == b.enterprise && a.maxMembers == b.maxMembers
  }

  predicate TermsEntered(e: Entry, n: Network)
    requires e.CreateEntry?
  {
    && n.name == e.name && n.joinRule == e.joinRule && n.token == e.token
    && n.enterprise == e.enterprise && n.maxMembers == 0
  }

  ghost predicate NetworkReplayed(s: State, e: Entry, t: State, k: NetId) {
    && (k in t.networks <==> (k in s.networks && e != DeleteEntry(k)) || (e.CreateEntry? && e.net == k))
    && (k in s.networks && k in t.networks ==> SameTerms(s.networks[k], t.networks[k]))
    && (k !in s.networks && k in t.networks ==> e.CreateEntry? && TermsEntered(e, t.networks[k]))
  }

  /** A registration of an unknown id indexes its key, a deregistration of a live node drops that
      node's key, a rotation of a live node replaces it. */
  predicate KeyIndexReplayed(s: State, e: Entry, t: State) {
    t.pubKeyIdx ==
    match e
    case RegisterEntry(id, key, _, _, _, _) => if id in s.nodes then s.pubKeyIdx else s.pubKeyIdx[key := id]
    case DeregisterEntry(id) => if id in s.nodes then s.pubKeyIdx - {s.nodes[id].key} else s.pubKeyIdx
    case RotateEntry(id, key) =>
      if id in s.nodes then (s.pubKeyIdx - {s.nodes[id].key})[key := id] else s.pubKeyIdx
    case _ => s.pubKeyIdx
  }

  /** Likewise the owners, which no rotation changes. */
  predicate OwnerIndexReplayed(s: State, e: Entry, t: State) {
    t.ownerIdx ==
    match e
    case RegisterEntry(id, _, owner, _, _, _) =>
      if id in s.nodes || owner == "" then s.ownerIdx else s.ownerIdx[owner := id]
    case DeregisterEntry(id) =>
      if id in s.nodes && s.nodes[id].owner != "" then s.ownerIdx - {s.nodes[id].owner} else s.ownerIdx
    case _ => s.ownerIdx
  }

  // --- only network lists move ------------------------------------------------------------------------

  /** Memberships aside, the nodes and the identity indices are the same. */
  ghost predicate SameIdentities(s: State, t: State) {
    && t.pubKeyIdx == s.pubKeyIdx && t.ownerIdx == s.ownerIdx && t.nodes.Keys == s.nodes.Keys
    && forall n :: n in s.nodes ==> t.nodes[n] == s.nodes[n].(networks := t.nodes[n].networks)
  }

  lemma {:induction false} DropsSameIdentities(s: State, members: seq<NodeId>, k: NetId)
    ensures SameIdentities(s, DropNodeNetworks(s, members, k))
    decreases |members|
  {
    if members != [] { DropsSameIdentities(DropNodeNetwork(s, members[0], k), members[1..], k); }
  }

  lemma PointSameIdentities(s: State, id: NodeId, k: NetId)
    ensures SameIdentities(s, PointOnce(s, id, k))
  {
  }

  lemma CreateSameIdentities(s: State, e: Entry)
    requires e.CreateEntry?
    ensures SameIdentities(s, ApplyCreate(s, e))
  {
    PointSameIdentities(s, e.creator, e.net);
  }

  lemma JoinSameIdentities(s: State, id: NodeId, k: NetId)
    ensures SameIdentities(s, ApplyJoin(s, id, k))
  {
    PointSameIdentities(s, id, k);
  }

  lemma LeaveSameIdentities(s: State, id: NodeId, k: NetId)
    ensures SameIdentities(s, ApplyLeave(s, id, k))
  {
  }

  lemma MembershipSameIdentities(s: State, e: Entry)
    requires e.CreateEntry? || e.DeleteEntry? || e.JoinEntry? || e.LeaveEntry?
    ensures SameIdentities(s, ApplyEntry(s, e))
  {
    match e
    case CreateEntry(_, _, _, _, _, _) => CreateSameIdentities(s, e);
    case DeleteEntry(k) => if k in s.networks { DropsSameIdentities(s, s.networks[k].members, k); }
    case JoinEntry(id, k) => JoinSameIdentities(s, id, k);
    case LeaveEntry(id, k) => LeaveSameIdentities(s, id, k);
  }

  lemma SameIdentitiesReplayed(s: State, e: Entry, t: State, n: NodeId)
    requires SameIdentities(s, t) && (e.CreateEntry? || e.DeleteEntry? || e.JoinEntry? || e.LeaveEntry?)
    ensures NodeReplayed(s, e, t, n) && KeyIndexReplayed(s, e, t) && OwnerIndexReplayed(s, e, t)
  {
    if n in s.nodes { assert t.nodes[n] == s.nodes[n].(networks := t.nodes[n].networks); }
  }

  // --- the entries that change them --------------------------------------------------------------------

  lemma RegisterStores(s: State, e: Entry)
    requires e.RegisterEntry? && e.id !in s.nodes
    ensures var t := ApplyRegister(s, e);
            && t.nodes == s.nodes[e.id := ReplayedNode(e)] && t.pubKeyIdx == s.pubKeyIdx[e.key := e.id]
            && t.ownerIdx == (if e.owner != "" then s.ownerIdx[e.owner := e.id] else s.ownerIdx)
  {
    EnteredStays(s, e);
  }

  lemma EnteredStays(s: State, e: Entry)
    requires e.RegisterEntry? && e.id !in s.nodes
    ensures var t, u := ApplyRegister(s, e), Entered(s, e);
            t.nodes == u.nodes && t.pubKeyIdx == u.pubKeyIdx && t.ownerIdx == u.ownerIdx && TermsKept(u, t)
  {
    ListedStays(Entered(s, e), e.id);
  }

  lemma ListedStays(u: State, id: NodeId)
    ensures var t := if 0 in u.networks then AddToBackbone(u, id) else u;
            t.nodes == u.nodes && t.pubKeyIdx == u.pubKeyIdx && t.ownerIdx == u.ownerIdx && TermsKept(u, t)
  {
  }

  lemma RegisterReplays(s: State, e: Entry, n: NodeId)
    requires e.RegisterEntry?
    ensures var t := ApplyEntry(s, e);
            NodeReplayed(s, e, t, n) && KeyIndexReplayed(s, e, t) && OwnerIndexReplayed(s, e, t)
  {
    if e.id !in s.nodes { RegisterStores(s, e); }
  }

  lemma DeregisterReplays(s: State, id: NodeId, n: NodeId)
    ensures var e, t := DeregisterEntry(id), ApplyDeregister(s, id);
            NodeReplayed(s, e, t, n) && KeyIndexReplayed(s, e, t) && OwnerIndexReplayed(s, e, t)
  {
  }

  lemma RotateReplays(s: State, id: NodeId, key: string, n: NodeId)
    ensures var e, t := RotateEntry(id, key), ApplyRotate(s, id, key);
            NodeReplayed(s, e, t, n) && KeyIndexReplayed(s, e, t) && OwnerIndexReplayed(s, e, t)
  {
  }

  /** Who is live after an entry, what each node then is, and where keys and owners lead. */
  lemma EntryNodesExactly(s: State, e: Entry, n: NodeId)
    ensures var t := ApplyEntry(s, e);
            NodeReplayed(s, e, t, n) && KeyIndexReplayed(s, e, t) && OwnerIndexReplayed(s, e, t)
  {
    match e
    case RegisterEntry(_, _, _, _, _, _) => RegisterReplays(s, e, n);
    case DeregisterEntry(id) => DeregisterReplays(s, id, n);
    case RotateEntry(id, key) => RotateReplays(s, id, key, n);
    case UnknownEntry =>
    case BrokenEntry =>
    case _ =>
      MembershipSameIdentities(s, e);
      SameIdentitiesReplayed(s, e, ApplyEntry(s, e), n);
  }

  // --- networks ------------------------------------------------------------------------------------------

  /** Members and roles aside, the networks are the same. */
  ghost predicate TermsKept(s: State, t: State) {
    t.networks.Keys == s.networks.Keys && forall k :: k in s.networks ==> SameTerms(s.networks[k], t.networks[k])
  }

  lemma {:induction false} DropsKeepTerms(s: State, id: NodeId, networks: seq<NetId>)
    ensures TermsKept(s, DropFromNetworks(s, id, networks))
    decreases |networks|
  {
    if networks != [] {
      DropsKeepTerms(if networks[0] in s.networks then DropMember(s, networks[0], id) else s, id, networks[1..]);
    }
  }

  lemma DeregisterKeepsTerms(s: State, id: NodeId)
    ensures TermsKept(s, ApplyDeregister(s, id))
  {
    if id in s.nodes {
      var n := s.nodes[id];
      var s1 := s.(pubKeyIdx := s.pubKeyIdx - {n.key},
                   ownerIdx := if n.owner != "" then s.ownerIdx - {n.owner} else s.ownerIdx,
                   hostnameIdx := if n.hostname != "" then s.hostnameIdx - {n.hostname} else s.hostnameIdx,
                   nodes := s.nodes - {id});
      DropsKeepTerms(s1, id, n.networks);
    }
  }

  lemma RegisterKeepsTerms(s: State, e: Entry)
    requires e.RegisterEntry?
    ensures TermsKept(s, ApplyRegister(s, e))
  {
    if e.id !in s.nodes { EnteredStays(s, e); }
  }

  lemma JoinKeepsTerms(s: State, id: NodeId, k: NetId)
    ensures TermsKept(s, ApplyJoin(s, id, k))
  {
    if k in s.networks && id in s.nodes {
      var net := s.networks[k];
      var s1 := if id in net.members then s
                else WithNetwork(s, k, net.(members := net.members + [id], roles := net.roles[id := Member]));
      assert TermsKept(s, s1);
      PointKeepsNetworks(s1, id, k);
    }
  }

  lemma LeaveKeepsTerms(s: State, id: NodeId, k: NetId)
    ensures TermsKept(s, ApplyLeave(s, id, k))
  {
  }

  lemma CreateReplays(s: State, e: Entry, k: NetId)
    requires e.CreateEntry?
    ensures NetworkReplayed(s, e, ApplyCreate(s, e), k)
  {
    if e.net !in s.networks {
      CreateStores(s, e);
    }
  }

  lemma CreateStores(s: State, e: Entry)
    requires e.CreateEntry? && e.net !in s.networks
    ensures ApplyCreate(s, e).networks == s.networks[e.net := CreatedNetwork(e)]
  {
    PointKeepsNetworks(s, e.creator, e.net);
  }

  lemma PointKeepsNetworks(s: State, id: NodeId, k: NetId)
    ensures PointOnce(s, id, k).networks == s.networks
  {
  }

  lemma DeleteReplays(s: State, j: NetId, k: NetId)
    ensures NetworkReplayed(s, DeleteEntry(j), ApplyDelete(s, j), k)
  {
  }

  /** Which networks exist after an entry and on what terms. */
  lemma EntryNetworksExactly(s: State, e: Entry, k: NetId)
    ensures NetworkReplayed(s, e, ApplyEntry(s, e), k)
  {
    match e
    case RegisterEntry(_, _, _, _, _, _) => RegisterKeepsTerms(s, e);
    case DeregisterEntry(id) => DeregisterKeepsTerms(s, id);
    case CreateEntry(_, _, _, _, _, _) => CreateReplays(s, e, k);
    case DeleteEntry(j) => DeleteReplays(s, j, k);
    case JoinEntry(id, j) => JoinKeepsTerms(s, id, j);
    case LeaveEntry(id, j) => LeaveKeepsTerms(s, id, j);
    case RotateEntry(_, _) =>
    case UnknownEntry =>
    case BrokenEntry =>
  }
}
