/** The server object: the handlers as they update the maps and slices, each proved to
    have the effect its specification in Registry and DeltaReplay names. */
module RegistryServer {
  import opened Options
  import opened Registry
  import opened RegistryInvariants
  import opened RegistrySteps
  import RegistryRuns
  import opened RegisterLaws
  import opened MembershipLaws
  import opened ReplayLaws
  import opened DeltaReplay
  import opened Loading
  import opened PreAssigned

  // --- slice helpers -------------------------------------------------------------------------

  lemma {:induction false} RemoveFirstAt(s: seq<nat>, x: nat, i: nat)
    requires i < |s| && s[i] == x && forall j :: 0 <= j < i ==> s[j] != x
    ensures RemoveFirst(s, x) == s[..i] + s[i + 1..]
    decreases |s|
  {
    if i > 0 {
      RemoveFirstAt(s[1..], x, i - 1);
      assert [s[0]] + (s[1..][..i - 1] + s[1..][i..]) == s[..i] + s[i + 1..];
    }
  }

  /** The search loop that cuts one entry out of a slice. */
  method CutFirst(s: seq<nat>, x: nat) returns (r: seq<nat>, found: bool)
    ensures r == RemoveFirst(s, x)
    ensures found <==> x in s
  {
    var i := 0;
    while i < |s|
      invariant i <= |s|
      invariant forall j :: 0 <= j < i ==> s[j] != x
    {
      if s[i] == x {
        RemoveFirstAt(s, x, i);
        return s[..i] + s[i + 1..], true;
      }
      i := i + 1;
    }
    return s, false;
  }

  lemma {:induction false} RemoveAllSnoc(s: seq<nat>, y: nat, x: nat)
    ensures RemoveAll(s + [y], x) == RemoveAll(s, x) + (if y == x then [] else [y])
    decreases |s|
  {
    if s == [] {
      assert s + [y] == [y] && [y][1..] == [];
    } else {
      assert (s + [y])[0] == s[0] && (s + [y])[1..] == s[1..] + [y];
      RemoveAllSnoc(s[1..], y, x);
    }
  }

  /** The filtering loop of the administrator's kick. */
  method FilterOut(s: seq<nat>, x: nat) returns (r: seq<nat>)
    ensures r == RemoveAll(s, x)
  {
    r := [];
    var i := 0;
    while i < |s|
      invariant i <= |s|
      invariant r == RemoveAll(s[..i], x)
    {
      assert s[..i + 1] == s[..i] + [s[i]];
      RemoveAllSnoc(s[..i], s[i], x);
      if s[i] != x { r := r + [s[i]]; }
      i := i + 1;
    }
    assert s[..i] == s;
  }

  lemma {:induction false} KeepInvitesSnoc(a: seq<Invite>, i: Invite, keep: Invite -> bool)
    ensures KeepInvites(a + [i], keep) == KeepInvites(a, keep) + (if keep(i) then [i] else [])
    decreases |a|
  {
    if a == [] {
      assert a + [i] == [i] && [i][1..] == [];
    } else {
      assert (a + [i])[0] == a[0] && (a + [i])[1..] == a[1..] + [i];
      KeepInvitesSnoc(a[1..], i, keep);
    }
  }

  /** The loop that separates open invites from expired ones. */
  method OpenInvites(inbox: seq<Invite>, now: int) returns (active: seq<Invite>, expired: nat)
    ensures active == KeepInvites(inbox, (i: Invite) => !Expired(i, now))
    ensures expired == 0 <==> active == inbox
    ensures expired == 0 <==> !exists i :: i in inbox && Expired(i, now)
  {
    var keep := (i: Invite) => !Expired(i, now);
    active, expired := [], 0;
    var i := 0;
    while i < |inbox|
      invariant i <= |inbox| && active == KeepInvites(inbox[..i], keep)
      invariant expired == 0 <==> forall j :: 0 <= j < i ==> !Expired(inbox[j], now)
    {
      assert inbox[..i + 1] == inbox[..i] + [inbox[i]];
      KeepInvitesSnoc(inbox[..i], inbox[i], keep);
      if keep(inbox[i]) { active := active + [inbox[i]]; } else { expired := expired + 1; }
      i := i + 1;
    }
    assert inbox[..i] == inbox;
    KeepsAllExactly(inbox, keep);
    assert forall j :: 0 <= j < |inbox| ==> inbox[j] in inbox;
  }

  lemma {:induction false} KeepsAllExactly(a: seq<Invite>, keep: Invite -> bool)
    ensures KeepInvites(a, keep) == a <==> forall i :: i in a ==> keep(i)
  {
    if a != [] {
      KeepsAllExactly(a[1..], keep);
      assert a == [a[0]] + a[1..];
      if KeepInvites(a, keep) == a { assert forall i :: i in a ==> i in KeepInvites(a, keep); }
    }
  }

  method RemainingInvites(invites: seq<Invite>, keep: Invite -> bool) returns (r: seq<Invite>)
    ensures r == KeepInvites(invites, keep)
  {
    r := [];
    var i := 0;
    while i < |invites|
      invariant i <= |invites|
      invariant r == KeepInvites(invites[..i], keep)
    {
      assert invites[..i + 1] == invites[..i] + [invites[i]];
      KeepInvitesSnoc(invites[..i], invites[i], keep);
      if keep(invites[i]) { r := r + [invites[i]]; }
      i := i + 1;
    }
    assert invites[..i] == invites;
  }

  /** The loop over all inboxes that drops the ones the filter empties. */
  method FilterEvery(m: map<NodeId, seq<Invite>>, keep: Invite -> bool) returns (r: map<NodeId, seq<Invite>>)
    ensures r == FilterInboxes(m, keep)
  {
    r := m;
    var rest := m.Keys;
    while rest != {}
      invariant rest <= m.Keys
      invariant forall t :: t in r <==> t in m && (t in rest || KeepInvites(m[t], keep) != [])
      invariant forall t :: t in r ==> r[t] == if t in rest then m[t] else KeepInvites(m[t], keep)
      decreases |rest|
    {
      var t :| t in rest;
      var remaining := RemainingInvites(m[t], keep);
      if remaining == [] { r := r - {t}; } else { r := r[t := remaining]; }
      rest := rest - {t};
    }
  }

  lemma {:induction false} AssignRolesSnoc(a: seq<NodeId>, n: NodeId, roles: map<NodeId, Role>, hasOwner: bool)
    ensures var r := AssignRoles(a, roles, hasOwner);
            var owned := hasOwner || exists i :: 0 <= i < |a| && a[i] !in roles;
            AssignRoles(a + [n], roles, hasOwner) ==
            if n in r then r else r[n := if owned then Member else Owner]
    decreases |a|
  {
    if a == [] {
      assert a + [n] == [n] && [n][1..] == [];
    } else {
      assert (a + [n])[0] == a[0] && (a + [n])[1..] == a[1..] + [n];
      if a[0] in roles {
        AssignRolesSnoc(a[1..], n, roles, hasOwner);
        assert (exists i :: 0 <= i < |a| && a[i] !in roles) <==> exists i :: 0 <= i < |a[1..]| && a[1..][i] !in roles by {
          if i :| 0 <= i < |a| && a[i] !in roles { assert a[1..][i - 1] == a[i]; }
          if i :| 0 <= i < |a[1..]| && a[1..][i] !in roles { assert a[i + 1] !in roles; }
        }
      } else {
        AssignRolesSnoc(a[1..], n, roles[a[0] := if hasOwner then Member else Owner], true);
      }
    }
  }

  /** The loop that gives every unlisted member a role. */
  method GiveRoles(members: seq<NodeId>, roles: map<NodeId, Role>) returns (r: map<NodeId, Role>)
    ensures r == AssignRoles(members, roles, HasOwner(roles))
  {
    var hasOwner := HasOwner(roles);
    r := roles;
    ghost var had := hasOwner;
    var i := 0;
    while i < |members|
      invariant i <= |members|
      invariant r == AssignRoles(members[..i], roles, had)
      invariant hasOwner <==> had || exists j :: 0 <= j < i && members[j] !in roles
      invariant forall j :: 0 <= j < i ==> members[j] in r
      invariant forall n :: n in r ==> n in roles || n in members[..i]
      invariant forall n :: n in roles ==> n in r
    {
      ghost var done := members[..i];
      assert members[..i + 1] == done + [members[i]];
      AssignRolesSnoc(done, members[i], roles, had);
      assert (exists j :: 0 <= j < |done| && done[j] !in roles) <==> exists j :: 0 <= j < i && members[j] !in roles by {
        if j :| 0 <= j < i && members[j] !in roles { assert done[j] !in roles; }
        if j :| 0 <= j < |done| && done[j] !in roles { assert members[j] !in roles; }
      }
      if members[i] !in r {
        if !hasOwner {
          r := r[members[i] := Owner];
          hasOwner := true;
        } else {
          r := r[members[i] := Member];
        }
      }
      i := i + 1;
    }
    assert members[..i] == members;
  }

  /** The loop that makes up roles for a network saved without any. */
  method FirstIsOwner(members: seq<NodeId>) returns (roles: map<NodeId, Role>)
    ensures roles == Backfill(members)
  {
    roles := map[];
    var i := 0;
    while i < |members|
      invariant i <= |members| && roles == Backfill(members[..i])
    {
      assert members[..i + 1][..i] == members[..i];
      if i == 0 { roles := roles[members[i] := Owner]; } else { roles := roles[members[i] := Member]; }
      i := i + 1;
    }
    assert members[..i] == members;
  }

  /** The search for the invite to `k` that a response looks at. */
  method Lookup(inbox: seq<Invite>, k: NetId) returns (r: Option<Invite>)
    ensures r == FindInvite(inbox, k)
  {
    var i := 0;
    while i < |inbox|
      invariant i <= |inbox| && FindInvite(inbox[i..], k) == FindInvite(inbox, k)
    {
      if inbox[i].net == k { return Some(inbox[i]); }
      assert inbox[i..][1..] == inbox[i + 1..];
      i := i + 1;
    }
    return None;
  }

  /** The range over the role map that stops at an owner; zero when there is none. */
  method OwnerOf(roles: map<NodeId, Role>) returns (n: NodeId)
    ensures n != 0 ==> n in roles && roles[n] == Owner
    ensures n == 0 ==> forall m :: m in roles && roles[m] == Owner ==> m == 0 || (0 in roles && roles[0] == Owner)
  {
    var rest := roles.Keys;
    while rest != {}
      invariant rest <= roles.Keys
      invariant forall m :: m in roles && m !in rest ==> roles[m] != Owner
      decreases |rest|
    {
      n :| n in rest;
      if roles[n] == Owner { return; }
      rest := rest - {n};
    }
    return 0;
  }

  // --- the server ------------------------------------------------------------------------------

  /** A reap candidate as the scan recorded it. */
  datatype Candidate = Candidate(id: NodeId, hostname: string)

  ghost function ReapEach(s: State, cands: seq<Candidate>, threshold: int): State
    decreases |cands|
  {
    if cands == [] then s
    else
      var last := cands[|cands| - 1];
      ReapSeen(ReapEach(s, cands[..|cands| - 1], threshold), last.id, last.hostname, threshold)
  }

  lemma {:induction false} DropFromNetworksSnoc(s: State, id: NodeId, a: seq<NetId>, k: NetId)
    ensures DropFromNetworks(s, id, a + [k]) ==
            var t := DropFromNetworks(s, id, a);
            if k in t.networks then DropMember(t, k, id) else t
    decreases |a|
  {
    if a == [] {
      assert a + [k] == [k] && [k][1..] == [];
    } else {
      assert (a + [k])[0] == a[0] && (a + [k])[1..] == a[1..] + [k];
      DropFromNetworksSnoc(if a[0] in s.networks then DropMember(s, a[0], id) else s, id, a[1..], k);
    }
  }

  lemma {:induction false} DropNodeNetworksSnoc(s: State, a: seq<NodeId>, id: NodeId, k: NetId)
    ensures DropNodeNetworks(s, a + [id], k) == DropNodeNetwork(DropNodeNetworks(s, a, k), id, k)
    decreases |a|
  {
    if a == [] {
      assert a + [id] == [id] && [id][1..] == [];
    } else {
      assert (a + [id])[0] == a[0] && (a + [id])[1..] == a[1..] + [id];
      DropNodeNetworksSnoc(DropNodeNetwork(s, a[0], k), a[1..], id, k);
    }
  }

  lemma RangesStep(m: map<NodeId, Node>, order: seq<NodeId>, id: NodeId, rest: set<NodeId>)
    requires rest <= m.Keys && id in rest && Ranges(order, m - rest)
    ensures Ranges(order + [id], m - (rest - {id}))
    ensures Unsigned(m - (rest - {id})) == Unsigned(m - rest)[id := m[id].(sigVerified := false)]
    ensures IndexNodes(m, order + [id]) == IndexOne(IndexNodes(m, order), id, m[id])
  {
    AppendNoDup(order, id);
    assert (order + [id])[..|order|] == order;
  }

  class Server {
    var nodes: map<NodeId, Node>
    var networks: map<NetId, Network>
    var pubKeyIdx: map<string, NodeId>
    var ownerIdx: map<string, NodeId>
    var hostnameIdx: map<string, NodeId>
    var invites: map<NodeId, seq<Invite>>
    var nextNode: NodeId
    var nextNet: NetId
    var maxNodes: int

    ghost function Model(): State
      reads this
    {
      State(nodes, networks, pubKeyIdx, ownerIdx, hostnameIdx, invites, nextNode, nextNet, maxNodes)
    }

    /** Every live handler keeps the redundant maps in agreement. */
    ghost predicate Valid()
      reads this
    {
      Inv(Model())
    }

    constructor ()
      ensures Valid() && Model() == Initial
    {
      nodes, networks := map[], map[0 := Network("backbone", "open", "", false, 0, [], map[])];
      pubKeyIdx, ownerIdx, hostnameIdx, invites := map[], map[], map[], map[];
      nextNode, nextNet, maxNodes := 1, 1, 1_000_000;
      new;
      RegistryRuns.InitialInv();
    }

    // --- callbacks -----------------------------------------------------------------------------

    method AppendNodeNetwork(id: NodeId, k: NetId)
      requires id in nodes
      modifies this`nodes
      ensures nodes == old(nodes)[id := old(nodes)[id].(networks := old(nodes)[id].networks + [k])]
    {
      nodes := nodes[id := nodes[id].(networks := nodes[id].networks + [k])];
    }

    method RemoveNodeNetwork(id: NodeId, k: NetId) returns (found: bool)
      modifies this`nodes
      ensures Model() == DropNodeNetwork(old(Model()), id, k)
      ensures found <==> id in old(nodes) && k in old(nodes)[id].networks
    {
      if id !in nodes { return false; }
      var rest;
      rest, found := CutFirst(nodes[id].networks, k);
      nodes := nodes[id := nodes[id].(networks := rest)];
    }

    method RemoveMember(k: NetId, id: NodeId) returns (found: bool)
      requires k in networks
      modifies this`networks
      ensures Model() == DropMember(old(Model()), k, id)
      ensures found <==> id in old(networks)[k].members
    {
      var rest;
      rest, found := CutFirst(networks[k].members, id);
      networks := networks[k := networks[k].(members := rest, roles := networks[k].roles - {id})];
    }

    method AddNodeToBackbone(id: NodeId)
      requires 0 in networks
      modifies this`networks
      ensures Model() == AddToBackbone(old(Model()), id)
    {
      var net := networks[0];
      var i := 0;
      while i < |net.members|
        invariant i <= |net.members| && id !in net.members[..i]
        invariant networks == old(networks)
      {
        if net.members[i] == id { return; }
        i := i + 1;
      }
      assert net.members[..i] == net.members;
      networks := networks[0 := net.(members := net.members + [id])];
    }

    method ScanNetworkMemberships(id: NodeId) returns (scan: seq<NetId>)
      ensures IsScan(Model(), id, scan)
    {
      scan := [];
      var rest := networks.Keys;
      while rest != {}
        invariant rest <= networks.Keys && NoDup(scan)
        invariant forall k :: k in scan <==> k != 0 && k in networks && k !in rest && id in networks[k].members
        decreases |rest|
      {
        var k :| k in rest;
        if k != 0 && id in networks[k].members {
          AppendNoDup(scan, k);
          scan := scan + [k];
        }
        rest := rest - {k};
      }
    }

    // --- directory -----------------------------------------------------------------------------

    method PutHostname(id: NodeId, hostname: string)
      requires id in nodes
      modifies this`nodes, this`hostnameIdx
      ensures Model() == ReplaceHostname(old(Model()), id, hostname)
    {
      if nodes[id].hostname != "" { hostnameIdx := hostnameIdx - {nodes[id].hostname}; }
      nodes := nodes[id := nodes[id].(hostname := hostname)];
      if hostname != "" { hostnameIdx := hostnameIdx[hostname := id]; }
    }

    method ClaimHostname(id: NodeId, hostname: string)
      requires id in nodes
      modifies this`nodes, this`hostnameIdx
      ensures Model() == SetNodeHostname(old(Model()), id, hostname)
    {
      if hostname == "" { return; }
      if hostname in hostnameIdx && hostnameIdx[hostname] != id { return; }
      PutHostname(id, hostname);
    }

    method RefreshEndpoint(id: NodeId, r: Registration)
      requires id in nodes
      modifies this`nodes
      ensures nodes == old(nodes)[id := Refresh(old(nodes)[id], r)]
    {
      var n := nodes[id];
      var e := r.endpoint;
      if e.version == "" { e := e.(version := n.endpoint.version); }
      n := n.(lastSeen := r.now, endpoint := e);
      if r.sigVerified { n := n.(sigVerified := true); }
      nodes := nodes[id := n];
    }

    method Place(r: Registration, id: NodeId, onto: seq<NetId>)
      requires 0 in networks
      modifies this`nodes, this`networks, this`hostnameIdx
      ensures Model() == Revive(old(Model()), r, id, onto)
    {
      nodes := nodes[id := Node(r.key, r.owner, "", onto, r.now, r.endpoint, r.sigVerified)];
      AddNodeToBackbone(id);
      ClaimHostname(id, r.hostname);
    }

    /** The registration handler. The request's own scan field is ignored: the
        handler scans, and the result names the scan it used. */
    method HandleReRegister(r: Registration) returns (id: Option<NodeId>, scan: seq<NetId>)
      requires Valid()
      modifies this
      ensures Valid()
      ensures RegisterEnabled(old(Model()), r.(scan := scan))
      ensures id == RegisterId(old(Model()), r)
      ensures Model() == Register(old(Model()), r.(scan := scan))
      ensures id == if Refuses(old(Model()), r) then None else Some(Subject(old(Model()), r))
      ensures id.None? ==> Model() == old(Model())
      ensures id.Some? ==> Registers(old(Model()), Model(), r, id.value)
                           && IndexesIdentity(old(Model()), Model(), r, id.value)
    {
      ghost var before := Model();
      id, scan := ReRegisterLocked(r);
      RegisterKeeps(before, r.(scan := scan));
      AnsweredWithScan(before, r, scan);
    }

    method ReRegisterLocked(r: Registration) returns (id: Option<NodeId>, scan: seq<NetId>)
      requires 0 in networks
      modifies this
      ensures RegisterEnabled(old(Model()), r.(scan := scan))
      ensures id == RegisterId(old(Model()), r)
      ensures Model() == Register(old(Model()), r.(scan := scan))
    {
      scan := [];
      if !r.keyOk { return None, []; }
      if r.key in pubKeyIdx {
        var known := pubKeyIdx[r.key];
        if known in nodes {
          if !r.sigVerified && nodes[known].sigVerified { return None, []; }
          RefreshExisting(r);
          return Some(known), [];
        }
        scan := ScanNetworkMemberships(known);
        ReclaimByKey(r, scan);
        return Some(known), scan;
      }
      if r.owner != "" && r.owner in ownerIdx {
        var held := ownerIdx[r.owner];
        if held in nodes { return None, []; }
        pubKeyIdx := pubKeyIdx[r.key := held];
        Place(r, held, [0]);
        return Some(held), [];
      }
      if maxNodes > 0 && |nodes| >= maxNodes { return None, []; }
      if nextNode == 0 { return None, []; }
      id := Some(nextNode);
      AllocateNode(r);
    }

    method RefreshExisting(r: Registration)
      requires IsKnownLive(Model(), r.key)
      modifies this`nodes, this`ownerIdx, this`hostnameIdx
      ensures Model() == if FastPathTaken(old(Model()), r) then FastPath(old(Model()), r) else SlowPath(old(Model()), r)
    {
      var id := pubKeyIdx[r.key];
      var ownerNeedsIndex := r.owner != "" && nodes[id].owner == "";
      var hostnameNeedsIndex := r.hostname != "" && r.hostname != nodes[id].hostname;
      if !ownerNeedsIndex && !hostnameNeedsIndex {
        RefreshEndpoint(id, r);
        return;
      }
      RefreshEndpoint(id, r);
      if ownerNeedsIndex {
        nodes := nodes[id := nodes[id].(owner := r.owner)];
        ownerIdx := ownerIdx[r.owner := id];
      }
      ClaimHostname(id, r.hostname);
    }

    method ReclaimByKey(r: Registration, scan: seq<NetId>)
      requires r.key in pubKeyIdx && 0 in networks
      modifies this`nodes, this`networks, this`hostnameIdx, this`ownerIdx
      ensures Model() == KeyReclaim(old(Model()), r.(scan := scan))
    {
      var id := pubKeyIdx[r.key];
      var onto := [0];
      var i := 0;
      while i < |scan|
        invariant i <= |scan| && onto == [0] + scan[..i]
      {
        onto := onto + [scan[i]];
        i := i + 1;
      }
      assert scan[..i] == scan;
      if r.owner != "" { ownerIdx := ownerIdx[r.owner := id]; }
      Place(r.(scan := scan), id, onto);
    }

    method AllocateNode(r: Registration)
      requires 0 in networks
      modifies this
      ensures Model() == Allocate(old(Model()), r)
    {
      var id := nextNode;
      nextNode := (nextNode + 1) % NODE_LIMIT;
      pubKeyIdx := pubKeyIdx[r.key := id];
      if r.owner != "" { ownerIdx := ownerIdx[r.owner := id]; }
      Place(r, id, [0]);
    }

    method HandleSetHostname(id: NodeId, hostname: string, authorized: bool) returns (ok: bool)
      requires Valid()
      modifies this`nodes, this`hostnameIdx
      ensures Valid()
      ensures Model() == SetHostname(old(Model()), id, hostname, authorized)
      ensures ok ==> id in nodes && nodes[id].hostname == hostname
      ensures !ok ==> Model() == old(Model())
    {
      SetHostnameKeeps(Model(), id, hostname, authorized);
      if id !in nodes || !authorized { return false; }
      if hostname != "" && hostname in hostnameIdx && hostnameIdx[hostname] != id { return false; }
      PutHostname(id, hostname);
      return true;
    }

    method HandleHeartbeat(id: NodeId, now: int, authorized: bool)
      requires Valid()
      modifies this`nodes
      ensures Valid()
      ensures Model() == Heartbeat(old(Model()), id, now, authorized)
    {
      HeartbeatKeeps(Model(), id, now, authorized);
      if id !in nodes || !authorized { return; }
      nodes := nodes[id := nodes[id].(lastSeen := now)];
    }

    method RemoveFromNetworks(id: NodeId, from: seq<NetId>)
      modifies this`networks
      ensures Model() == DropFromNetworks(old(Model()), id, from)
    {
      var i := 0;
      while i < |from|
        invariant i <= |from|
        invariant Model() == DropFromNetworks(old(Model()), id, from[..i])
      {
        DropFromNetworksSnoc(old(Model()), id, from[..i], from[i]);
        assert from[..i + 1] == from[..i] + [from[i]];
        if from[i] in networks { var _ := RemoveMember(from[i], id); }
        i := i + 1;
      }
      assert from[..i] == from;
    }

    method DeregisterLocked(id: NodeId, authorized: bool)
      modifies this
      ensures Model() == Deregister(old(Model()), id, authorized)
    {
      if id !in nodes || !authorized { return; }
      var n := nodes[id];
      RemoveFromNetworks(id, n.networks);
      invites := FilterEvery(invites - {id}, (i: Invite) => i.inviter != id);
      if n.hostname != "" { hostnameIdx := hostnameIdx - {n.hostname}; }
      nodes := nodes - {id};
    }

    method HandleDeregister(id: NodeId, authorized: bool)
      requires Valid()
      modifies this
      ensures Valid()
      ensures Model() == Deregister(old(Model()), id, authorized)
    {
      ghost var before := Model();
      DeregisterLocked(id, authorized);
      DeregisterKeeps(before, id, authorized);
    }

    method DeleteStale(id: NodeId, saw: string, threshold: int)
      modifies this`nodes, this`networks, this`hostnameIdx
      ensures Model() == ReapSeen(old(Model()), id, saw, threshold)
    {
      if id !in nodes || nodes[id].lastSeen >= threshold { return; }
      if 0 in networks {
        var rest, _ := CutFirst(networks[0].members, id);
        networks := networks[0 := networks[0].(members := rest)];
      }
      if saw != "" { hostnameIdx := hostnameIdx - {saw}; }
      nodes := nodes - {id};
    }

    /** The deletion phase of a reap tick over the candidates its scan collected. */
    method DeleteCandidates(cands: seq<Candidate>, threshold: int)
      modifies this`nodes, this`networks, this`hostnameIdx
      ensures Model() == ReapEach(old(Model()), cands, threshold)
    {
      var i := 0;
      while i < |cands|
        invariant i <= |cands| && Model() == ReapEach(old(Model()), cands[..i], threshold)
      {
        assert cands[..i + 1][..i] == cands[..i];
        DeleteStale(cands[i].id, cands[i].hostname, threshold);
        i := i + 1;
      }
      assert cands[..i] == cands;
    }

    method UpdateNodeKey(id: NodeId, expected: Option<string>, key: string, now: int) returns (prev: Option<string>)
      requires Valid()
      modifies this`nodes
      ensures Valid()
      ensures Model() == RotateKey(old(Model()), id, expected, key, now)
      ensures prev.Some? <==> id in old(nodes) && (expected.None? || old(nodes)[id].key == expected.value)
      ensures prev.Some? ==> prev.value == old(nodes)[id].key
    {
      RotateKeyKeeps(Model(), id, expected, key, now);
      if id !in nodes { return None; }
      if expected.Some? && nodes[id].key != expected.value { return None; }
      prev := Some(nodes[id].key);
      nodes := nodes[id := nodes[id].(key := key, lastSeen := now)];
    }

    method OnKeyRotated(id: NodeId, prev: string, key: string)
      requires Valid() && Issued(Model(), id)
      modifies this`pubKeyIdx
      ensures Valid()
      ensures Model() == IndexRotation(old(Model()), id, prev, key)
    {
      IndexRotationKeeps(Model(), id, prev, key);
      pubKeyIdx := pubKeyIdx - {prev};
      pubKeyIdx := pubKeyIdx[key := id];
    }

    // --- membership ----------------------------------------------------------------------------

    method NameTaken(name: string) returns (taken: bool)
      ensures taken <==> exists k :: k in networks && networks[k].name == name
    {
      var rest := networks.Keys;
      while rest != {}
        invariant rest <= networks.Keys
        invariant forall k :: k in networks && k !in rest ==> networks[k].name != name
        decreases |rest|
      {
        var k :| k in rest;
        if networks[k].name == name { return true; }
        rest := rest - {k};
      }
      return false;
    }

    method CreateLocked(id: NodeId, name: string, joinRule: string, token: string,
                               enterprise: bool, authorized: bool) returns (created: Option<NetId>)
      modifies this`nodes, this`networks, this`nextNet
      ensures Model() == CreateNetwork(old(Model()), id, name, joinRule, token, enterprise, authorized)
      ensures created.Some? ==> created.value in networks && networks[created.value].members == [id]
    {
      var rule := if joinRule == "" then "open" else joinRule;
      if !authorized || (rule == "invite" && !enterprise) { return None; }
      if id !in nodes || nextNet == 0 { return None; }
      var taken := NameTaken(name);
      if taken { return None; }
      var k := nextNet;
      nextNet := (nextNet + 1) % NET_LIMIT;
      networks := networks[k := Network(name, rule, token, enterprise, 0, [id], map[id := Owner])];
      AppendNodeNetwork(id, k);
      return Some(k);
    }

    method HandleCreateNetwork(id: NodeId, name: string, joinRule: string, token: string,
                               enterprise: bool, authorized: bool) returns (created: Option<NetId>)
      requires Valid()
      modifies this`nodes, this`networks, this`nextNet
      ensures Valid()
      ensures Model() == CreateNetwork(old(Model()), id, name, joinRule, token, enterprise, authorized)
      ensures created.Some? ==> created.value in networks && networks[created.value].members == [id]
    {
      ghost var before := Model();
      created := CreateLocked(id, name, joinRule, token, enterprise, authorized);
      CreateKeeps(before, id, name, joinRule, token, enterprise, authorized);
    }

    method Enlist(id: NodeId, k: NetId)
      requires id in nodes && k in networks
      modifies this`nodes, this`networks
      ensures Model() == Link(old(Model()), id, k)
    {
      var net := networks[k];
      networks := networks[k := net.(members := net.members + [id], roles := net.roles[id := Member])];
      AppendNodeNetwork(id, k);
    }

    method JoinLocked(id: NodeId, k: NetId, token: string, authorized: bool) returns (ok: bool)
      requires Valid()
      modifies this`nodes, this`networks
      ensures Valid()
      ensures Model() == Join(old(Model()), id, k, token, authorized)
      ensures ok <==> authorized && JoinAllowed(old(Model()), id, k, token)
    {
      JoinKeeps(Model(), id, k, token, authorized);
      if k == 0 || !authorized || id !in nodes || k !in networks { return false; }
      var net := networks[k];
      if net.joinRule == "token" {
        if token != net.token { return false; }
      } else if net.joinRule != "open" {
        return false;
      }
      if net.maxMembers > 0 && |net.members| >= net.maxMembers { return false; }
      if k in nodes[id].networks { return false; }
      Enlist(id, k);
      return true;
    }

    /** The search through the roles assigned in advance, and the commit of the first match. */
    method ApplyPreAssignment(id: NodeId, k: NetId, roles: seq<Assignment>, externalId: string,
                              same: (string, string) -> bool)
      requires k in networks
      modifies this`networks
      ensures var role := FirstMatch(roles, externalId, same);
              Model() == if role.None? then old(Model()) else CommitRole(old(Model()), k, id, role.value)
    {
      if externalId == "" { return; }
      var i := 0;
      while i < |roles|
        invariant i <= |roles| && networks == old(networks)
        invariant FirstMatch(roles, externalId, same) == FirstMatch(roles[i..], externalId, same)
      {
        if same(roles[i].externalId, externalId) {
          networks := networks[k := networks[k].(roles := networks[k].roles[id := RoleNamed(roles[i].role)])];
          return;
        }
        i := i + 1;
      }
    }

    /** The join and, in the same locked section, a role assigned in advance. The server stays
        valid exactly if that does not make a second owner. */
    method HandleJoinNetwork(id: NodeId, k: NetId, token: string, authorized: bool,
                             roles: seq<Assignment>, externalId: string, same: (string, string) -> bool)
      returns (ok: bool)
      requires Valid()
      modifies this`nodes, this`networks
      ensures var role := FirstMatch(roles, externalId, same);
              && Model() == JoinAssigned(old(Model()), id, k, token, authorized, role)
              && (Valid() <==> !SecondOwner(old(Model()), id, k, token, authorized, role))
      ensures ok <==> Joins(old(Model()), NetworkStep(OpJoin(id, k, token, authorized)), k, id)
    {
      JoinsExactly(Model(), id, k, token, authorized);
      JoinAssignedExactly(Model(), id, k, token, authorized, FirstMatch(roles, externalId, same));
      ok := JoinAndAssign(id, k, token, authorized, roles, externalId, same);
    }

    method JoinAndAssign(id: NodeId, k: NetId, token: string, authorized: bool,
                         roles: seq<Assignment>, externalId: string, same: (string, string) -> bool)
      returns (ok: bool)
      requires Valid()
      modifies this`nodes, this`networks
      ensures Model() == JoinAssigned(old(Model()), id, k, token, authorized, FirstMatch(roles, externalId, same))
      ensures ok <==> authorized && JoinAllowed(old(Model()), id, k, token)
    {
      ok := JoinLocked(id, k, token, authorized);
      if ok { ApplyPreAssignment(id, k, roles, externalId, same); }
    }

    /** Drops the invites of `id` to network `k`, then those it sent for it. */
    method ClearInvites(id: NodeId, k: NetId)
      modifies this`invites
      ensures invites == FilterInboxes(FilterInbox(old(invites), id, (i: Invite) => i.net != k),
                                       (i: Invite) => !(i.net == k && i.inviter == id))
    {
      ClearOwnInvites(id, k);
      invites := FilterEvery(invites, (i: Invite) => !(i.net == k && i.inviter == id));
    }

    method ClearOwnInvites(id: NodeId, k: NetId)
      modifies this`invites
      ensures invites == FilterInbox(old(invites), id, (i: Invite) => i.net != k)
    {
      if id !in invites { return; }
      var remaining := RemainingInvites(invites[id], (i: Invite) => i.net != k);
      if remaining == [] { invites := invites - {id}; } else { invites := invites[id := remaining]; }
    }

    method LeaveLocked(id: NodeId, k: NetId, authorized: bool) returns (ok: bool)
      modifies this`nodes, this`networks, this`invites
      ensures Model() == Leave(old(Model()), id, k, authorized)
      ensures ok <==> authorized && LeaveAllowed(old(Model()), id, k)
    {
      if k == 0 || !authorized || id !in nodes || k !in networks { return false; }
      if networks[k].enterprise && HoldsRole(networks[k], id, Owner) { return false; }
      var found := RemoveNodeNetwork(id, k);
      if !found { return false; }
      var _ := RemoveMember(k, id);
      ClearInvites(id, k);
      return true;
    }

    method HandleLeaveNetwork(id: NodeId, k: NetId, authorized: bool) returns (ok: bool)
      requires Valid()
      modifies this`nodes, this`networks, this`invites
      ensures Valid()
      ensures Model() == Leave(old(Model()), id, k, authorized)
      ensures ok <==> authorized && LeaveAllowed(old(Model()), id, k)
    {
      ghost var before := Model();
      ok := LeaveLocked(id, k, authorized);
      LeaveKeeps(before, id, k, authorized);
    }

    method RemoveNetworkFromNodes(members: seq<NodeId>, k: NetId)
      modifies this`nodes
      ensures Model() == DropNodeNetworks(old(Model()), members, k)
    {
      var i := 0;
      while i < |members|
        invariant i <= |members|
        invariant Model() == DropNodeNetworks(old(Model()), members[..i], k)
      {
        DropNodeNetworksSnoc(old(Model()), members[..i], members[i], k);
        assert members[..i + 1] == members[..i] + [members[i]];
        var _ := RemoveNodeNetwork(members[i], k);
        i := i + 1;
      }
      assert members[..i] == members;
    }

    method HandleDeleteNetwork(k: NetId, authorized: bool) returns (ok: bool)
      requires Valid()
      modifies this`nodes, this`networks, this`invites
      ensures Valid()
      ensures Model() == DeleteNetwork(old(Model()), k, authorized)
      ensures ok <==> k != 0 && authorized && k in old(networks)
    {
      DeleteKeeps(Model(), k, authorized);
      if k == 0 || !authorized || k !in networks { return false; }
      RemoveNetworkFromNodes(networks[k].members, k);
      invites := FilterEvery(invites, (i: Invite) => i.net != k);
      networks := networks - {k};
      return true;
    }

    method HandleSetNetworkEnterprise(k: NetId, enterprise: bool, authorized: bool)
      requires Valid()
      modifies this`networks
      ensures Valid()
      ensures Model() == SetEnterprise(old(Model()), k, enterprise, authorized)
    {
      SetEnterpriseKeeps(Model(), k, enterprise, authorized);
      if k == 0 || !authorized || k !in networks { return; }
      var net := networks[k].(enterprise := enterprise);
      var roles := map[];
      if enterprise { roles := GiveRoles(net.members, net.roles); }
      networks := networks[k := net.(roles := roles)];
    }

    method InviteLocked(inviter: NodeId, k: NetId, target: NodeId, now: int, operator: bool, authorized: bool)
      modifies this`invites
      ensures Model() == InviteTo(old(Model()), inviter, k, target, now, operator, authorized)
    {
      if !authorized || k !in networks { return; }
      var net := networks[k];
      if !net.enterprise || net.joinRule != "invite" { return; }
      if !operator {
        if inviter !in net.members { return; }
        if !HoldsRole(net, inviter, Owner) && !HoldsRole(net, inviter, Admin) { return; }
      }
      if target !in nodes || k in nodes[target].networks { return; }
      var inbox := if target in invites then invites[target] else [];
      var i := 0;
      while i < |inbox|
        invariant i <= |inbox| && invites == old(invites)
        invariant forall j :: 0 <= j < i ==> inbox[j].net != k
      {
        if inbox[i].net == k {
          assert inbox[i] in InboxOf(Model(), target);
          return;
        }
        i := i + 1;
      }
      if |inbox| >= MAX_INVITE_INBOX { return; }
      invites := invites[target := inbox + [Invite(k, inviter, now)]];
    }

    method HandleInviteToNetwork(inviter: NodeId, k: NetId, target: NodeId, now: int, operator: bool, authorized: bool)
      requires Valid()
      modifies this`invites
      ensures Valid()
      ensures Model() == InviteTo(old(Model()), inviter, k, target, now, operator, authorized)
    {
      ghost var before := Model();
      InviteLocked(inviter, k, target, now, operator, authorized);
      InviteKeeps(before, inviter, k, target, now, operator, authorized);
    }

    /** Returns the invites still open, and stores them back only if some had expired. */
    method PollLocked(id: NodeId, now: int, authorized: bool) returns (active: seq<Invite>)
      modifies this`invites
      ensures Model() == PollInvites(old(Model()), id, now, authorized)
      ensures id in nodes && authorized ==>
                active == KeepInvites(InboxOf(old(Model()), id), (i: Invite) => !Expired(i, now)) == InboxOf(Model(), id)
    {
      if id !in nodes || !authorized { return []; }
      var inbox := if id in invites then invites[id] else [];
      assert InboxOf(Model(), id) == inbox;
      var expired;
      active, expired := OpenInvites(inbox, now);
      if expired > 0 { invites := invites[id := active]; }
    }

    method HandlePollInvites(id: NodeId, now: int, authorized: bool) returns (active: seq<Invite>)
      requires Valid()
      modifies this`invites
      ensures Valid()
      ensures Model() == PollInvites(old(Model()), id, now, authorized)
      ensures id in nodes && authorized ==>
                active == KeepInvites(InboxOf(old(Model()), id), (i: Invite) => !Expired(i, now)) == InboxOf(Model(), id)
    {
      ghost var before := Model();
      active := PollLocked(id, now, authorized);
      PollKeeps(before, id, now, authorized);
    }

    method RespondLocked(id: NodeId, k: NetId, accept: bool, now: int, authorized: bool) returns (ok: bool)
      modifies this`nodes, this`networks, this`invites
      ensures Model() == RespondInvite(old(Model()), id, k, accept, now, authorized)
      ensures if ok then forall i :: i in InboxOf(Model(), id) ==> i.net != k else Model() == old(Model())
    {
      if id !in nodes || !authorized { return false; }
      var inbox := if id in invites then invites[id] else [];
      var found := Lookup(inbox, k);
      if found.None? || Expired(found.value, now) { return false; }
      if accept {
        if k !in networks || !networks[k].enterprise { return false; }
        if networks[k].maxMembers > 0 && |networks[k].members| >= networks[k].maxMembers { return false; }
        if k in nodes[id].networks { return false; }
        Enlist(id, k);
      }
      ClearOwnInvites(id, k);
      return true;
    }

    method HandleRespondInvite(id: NodeId, k: NetId, accept: bool, now: int, authorized: bool) returns (ok: bool)
      requires Valid()
      modifies this`nodes, this`networks, this`invites
      ensures Valid()
      ensures Model() == RespondInvite(old(Model()), id, k, accept, now, authorized)
      ensures if ok then forall i :: i in InboxOf(Model(), id) ==> i.net != k else Model() == old(Model())
    {
      ghost var before := Model();
      ok := RespondLocked(id, k, accept, now, authorized);
      RespondKeeps(before, id, k, accept, now, authorized);
    }

    method KickLocked(k: NetId, target: NodeId, caller: NodeId, authorized: bool) returns (ok: bool)
      modifies this`nodes, this`networks, this`invites
      ensures Model() == Kick(old(Model()), k, target, caller, authorized)
      ensures if ok then k in networks && target !in networks[k].roles else Model() == old(Model())
    {
      if k == 0 || !authorized || k !in networks { return false; }
      var net := networks[k];
      if HoldsRole(net, target, Owner) { return false; }
      if HoldsRole(net, caller, Admin) && HoldsRole(net, target, Admin) { return false; }
      if target !in net.members { return false; }
      var _ := RemoveMember(k, target);
      var _ := RemoveNodeNetwork(target, k);
      ClearInvites(target, k);
      return true;
    }

    method HandleKickMember(k: NetId, target: NodeId, caller: NodeId, authorized: bool) returns (ok: bool)
      requires Valid()
      modifies this`nodes, this`networks, this`invites
      ensures Valid()
      ensures Model() == Kick(old(Model()), k, target, caller, authorized)
      ensures if ok then k in networks && target !in networks[k].roles else Model() == old(Model())
    {
      ghost var before := Model();
      ok := KickLocked(k, target, caller, authorized);
      KickKeeps(before, k, target, caller, authorized);
    }

    method HandleTransferOwnership(k: NetId, next: NodeId, authorized: bool) returns (current: NodeId)
      requires Valid()
      modifies this`networks
      ensures Valid()
      ensures Model() == Transfer(old(Model()), k, next, current, authorized)
      ensures current == 0 || (k in old(networks) && HoldsRole(old(networks)[k], current, Owner))
    {
      if k == 0 || next == 0 || !authorized || k !in networks { return 0; }
      var net := networks[k];
      current := OwnerOf(net.roles);
      TransferKeeps(Model(), k, next, current, authorized);
      if current == 0 || next == current || next !in net.roles { return; }
      networks := networks[k := net.(roles := net.roles[current := Admin][next := Owner])];
    }

    method ChangeMemberRole(k: NetId, target: NodeId, from: Role, to: Role, authorized: bool) returns (ok: bool)
      requires Valid() && from != Owner && to != Owner
      modifies this`networks
      ensures Valid()
      ensures Model() == ChangeRole(old(Model()), k, target, from, to, authorized)
      ensures ok <==> k != 0 && authorized && k in old(networks) && HoldsRole(old(networks)[k], target, from)
    {
      ChangeRoleKeeps(Model(), k, target, from, to, authorized);
      if k == 0 || !authorized || k !in networks { return false; }
      var net := networks[k];
      if target !in net.roles || net.roles[target] != from { return false; }
      networks := networks[k := net.(roles := net.roles[target := to])];
      return true;
    }

    method AdminSetMemberRole(k: NetId, id: NodeId, role: Role)
      requires Valid()
      modifies this`networks
      ensures Valid()
      ensures Model() == AdminSetRole(old(Model()), k, id, role)
    {
      AdminSetRoleKeeps(Model(), k, id, role);
      if role == Owner || k !in networks { return; }
      var net := networks[k];
      if HoldsRole(net, id, Owner) || id !in net.members { return; }
      networks := networks[k := net.(roles := net.roles[id := role])];
    }

    method AdminKickMember(k: NetId, id: NodeId) returns (ok: bool)
      requires Valid()
      modifies this`nodes, this`networks
      ensures Valid()
      ensures Model() == AdminKick(old(Model()), k, id)
      ensures if ok then k in networks && id !in networks[k].roles else Model() == old(Model())
    {
      AdminKickKeeps(Model(), k, id);
      if k !in networks || HoldsRole(networks[k], id, Owner) || id !in networks[k].members { return false; }
      var _ := RemoveMember(k, id);
      if id in nodes {
        var filtered := FilterOut(nodes[id].networks, k);
        nodes := nodes[id := nodes[id].(networks := filtered)];
      }
      return true;
    }

    // --- loading a snapshot ------------------------------------------------------------------------

    method LoadNode(id: NodeId, n: Node)
      modifies this`nodes, this`pubKeyIdx, this`ownerIdx, this`hostnameIdx
      ensures nodes == old(nodes)[id := n.(sigVerified := false)]
      ensures Indices(pubKeyIdx, ownerIdx, hostnameIdx)
              == IndexOne(Indices(old(pubKeyIdx), old(ownerIdx), old(hostnameIdx)), id, n)
    {
      nodes := nodes[id := n.(sigVerified := false)];
      pubKeyIdx := pubKeyIdx[n.key := id];
      if n.owner != "" { ownerIdx := ownerIdx[n.owner := id]; }
      if n.hostname != "" { hostnameIdx := hostnameIdx[n.hostname := id]; }
    }

    /** Node records into the node map and the indices, in the order the range meets them. */
    method LoadNodes(snap: State) returns (order: seq<NodeId>)
      modifies this`nodes, this`pubKeyIdx, this`ownerIdx, this`hostnameIdx
      ensures Ranges(order, snap.nodes) && nodes == Unsigned(snap.nodes)
      ensures Indices(pubKeyIdx, ownerIdx, hostnameIdx) == IndexNodes(snap.nodes, order)
    {
      order := [];
      nodes, pubKeyIdx, ownerIdx, hostnameIdx := map[], map[], map[], map[];
      var rest := snap.nodes.Keys;
      while rest != {}
        invariant rest <= snap.nodes.Keys
        invariant Ranges(order, snap.nodes - rest) && nodes == Unsigned(snap.nodes - rest)
        invariant Indices(pubKeyIdx, ownerIdx, hostnameIdx) == IndexNodes(snap.nodes, order)
        decreases |rest|
      {
        var id :| id in rest;
        LoadNode(id, snap.nodes[id]);
        RangesStep(snap.nodes, order, id, rest);
        order := order + [id];
        rest := rest - {id};
      }
      assert snap.nodes - rest == snap.nodes;
    }

    /** Members of a network saved without roles get them again. */
    static method LoadNetwork(k: NetId, saved: Network) returns (net: Network)
      ensures net == LoadedNetwork(k, saved)
    {
      net := saved;
      if k != 0 && net.members != [] && net.roles == map[] {
        var roles := FirstIsOwner(net.members);
        net := net.(roles := roles);
      }
    }

    method LoadNetworks(snap: State)
      modifies this`networks
      ensures networks == map k | k in snap.networks :: LoadedNetwork(k, snap.networks[k])
    {
      networks := map[];
      var rest := snap.networks.Keys;
      while rest != {}
        invariant rest <= snap.networks.Keys && networks.Keys == snap.networks.Keys - rest
        invariant forall k :: k in networks ==> networks[k] == LoadedNetwork(k, snap.networks[k])
        decreases |rest|
      {
        var k :| k in rest;
        var net := LoadNetwork(k, snap.networks[k]);
        networks := networks[k := net];
        rest := rest - {k};
      }
    }

    /** Persisted key bindings fill the gaps the nodes leave. */
    method LoadKeys(saved: map<string, NodeId>)
      modifies this`pubKeyIdx
      ensures pubKeyIdx == saved + old(pubKeyIdx)
    {
      var rest := saved.Keys;
      while rest != {}
        invariant rest <= saved.Keys
        invariant forall p :: p in pubKeyIdx <==> p in old(pubKeyIdx) || (p in saved && p !in rest)
        invariant forall p :: p in pubKeyIdx ==>
                    pubKeyIdx[p] == if p in old(pubKeyIdx) then old(pubKeyIdx)[p] else saved[p]
        decreases |rest|
      {
        var p :| p in rest;
        if p !in pubKeyIdx { pubKeyIdx := pubKeyIdx[p := saved[p]]; }
        rest := rest - {p};
      }
    }

    /** The load of a snapshot of `snap`. */
    method Load(snap: State) returns (order: seq<NodeId>)
      modifies this
      ensures Ranges(order, snap.nodes) && Model() == Loaded(snap, order)
    {
      order := LoadNodes(snap);
      LoadNetworks(snap);
      LoadKeys(snap.pubKeyIdx);
      invites := map t | t in snap.invites && t != 0 :: snap.invites[t];
      nextNode, nextNet, maxNodes := snap.nextNode, snap.nextNet, snap.maxNodes;
    }

    // --- log replay ----------------------------------------------------------------------------

    method ApplyRegisterDelta(e: Entry)
      requires e.RegisterEntry?
      modifies this
      ensures Model() == ApplyRegister(old(Model()), e)
      ensures KeyIndexReplayed(old(Model()), e, Model()) && OwnerIndexReplayed(old(Model()), e, Model())
      ensures e.id in nodes && (e.id !in old(nodes) ==> AsEntered(e, nodes[e.id]))
    {
      ReplayRegister(e);
      RegisterReplays(old(Model()), e, e.id);
    }

    method ReplayRegister(e: Entry)
      requires e.RegisterEntry?
      modifies this
      ensures Model() == ApplyRegister(old(Model()), e)
    {
      if e.id in nodes { return; }
      nodes := nodes[e.id := Node(e.key, e.owner, e.hostname, [0], e.at, e.endpoint.(relayOnly := false), false)];
      pubKeyIdx := pubKeyIdx[e.key := e.id];
      if e.owner != "" { ownerIdx := ownerIdx[e.owner := e.id]; }
      if e.hostname != "" { hostnameIdx := hostnameIdx[e.hostname := e.id]; }
      if 0 in networks { AddNodeToBackbone(e.id); }
      if nextNode <= e.id { nextNode := (e.id + 1) % NODE_LIMIT; }
    }

    method ApplyDeregisterDelta(id: NodeId)
      modifies this
      ensures Model() == ApplyDeregister(old(Model()), id)
    {
      if id !in nodes { return; }
      var n := nodes[id];
      pubKeyIdx := pubKeyIdx - {n.key};
      if n.owner != "" { ownerIdx := ownerIdx - {n.owner}; }
      if n.hostname != "" { hostnameIdx := hostnameIdx - {n.hostname}; }
      nodes := nodes - {id};
      RemoveFromNetworks(id, n.networks);
    }

    method PointNode(id: NodeId, k: NetId)
      modifies this`nodes
      ensures Model() == PointOnce(old(Model()), id, k)
    {
      if id in nodes && k !in nodes[id].networks { AppendNodeNetwork(id, k); }
    }

    method ApplyCreateDelta(e: Entry)
      requires e.CreateEntry?
      modifies this
      ensures Model() == ApplyCreate(old(Model()), e)
    {
      if e.net in networks { return; }
      var net := Network(e.name, e.joinRule, e.token, e.enterprise, 0, [], map[]);
      if e.creator != 0 {
        net := net.(members := [e.creator], roles := map[e.creator := Owner]);
        PointNode(e.creator, e.net);
      }
      networks := networks[e.net := net];
      if nextNet <= e.net { nextNet := (e.net + 1) % NET_LIMIT; }
    }

    method ApplyDeleteDelta(k: NetId)
      modifies this
      ensures Model() == ApplyDelete(old(Model()), k)
    {
      if k !in networks { return; }
      RemoveNetworkFromNodes(networks[k].members, k);
      networks := networks - {k};
    }

    method ApplyMembershipDelta(id: NodeId, k: NetId, join: bool)
      modifies this
      ensures Model() == if join then ApplyJoin(old(Model()), id, k) else ApplyLeave(old(Model()), id, k)
    {
      if k !in networks || id !in nodes { return; }
      if join {
        var net := networks[k];
        if id !in net.members {
          networks := networks[k := net.(members := net.members + [id], roles := net.roles[id := Member])];
        }
        PointNode(id, k);
      } else {
        var _ := RemoveMember(k, id);
        var _ := RemoveNodeNetwork(id, k);
      }
    }

    method ApplyKeyRotationDelta(id: NodeId, key: string)
      modifies this
      ensures Model() == ApplyRotate(old(Model()), id, key)
    {
      if id !in nodes { return; }
      pubKeyIdx := pubKeyIdx - {nodes[id].key};
      nodes := nodes[id := nodes[id].(key := key)];
      pubKeyIdx := pubKeyIdx[key := id];
    }

    method ApplyOne(e: Entry) returns (ok: bool)
      modifies this
      ensures ok <==> !Malformed(e)
      ensures Model() == if Malformed(e) then old(Model()) else ApplyEntry(old(Model()), e)
    {
      if Malformed(e) { return false; }
      match e {
        case RegisterEntry(_, _, _, _, _, _) => ApplyRegisterDelta(e);
        case DeregisterEntry(id) => ApplyDeregisterDelta(id);
        case CreateEntry(_, _, _, _, _, _) => ApplyCreateDelta(e);
        case DeleteEntry(k) => ApplyDeleteDelta(k);
        case JoinEntry(id, k) => ApplyMembershipDelta(id, k, true);
        case LeaveEntry(id, k) => ApplyMembershipDelta(id, k, false);
        case RotateEntry(id, key) => ApplyKeyRotationDelta(id, key);
        case UnknownEntry =>
        case BrokenEntry =>
      }
      return true;
    }

    method ReplayLog(log: seq<Entry>)
      modifies this
      ensures Model() == ApplyLog(old(Model()), log)
    {
      var i := 0;
      while i < |log|
        invariant i <= |log|
        invariant ApplyLog(Model(), log[i..]) == ApplyLog(old(Model()), log)
      {
        assert log[i..][1..] == log[i + 1..];
        var ok := ApplyOne(log[i]);
        if !ok { return; }
        i := i + 1;
      }
    }
  }
}
