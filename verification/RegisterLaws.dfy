/** What a registration answers and leaves behind, told from the request and the state before:
    when it is refused, which id it is given, and what the node of that id then is. */
module RegisterLaws {
  import opened Options
  import opened Registry
  import opened RegistryInvariants

  /** The reasons to refuse: an undecodable key, an unsigned request for a key that has signed,
      an unknown key in the name of a live node's owner, and a full or exhausted registry. */
  predicate Refuses(s: State, r: Registration) {
    || !r.keyOk
    || (r.key in s.pubKeyIdx && s.pubKeyIdx[r.key] in s.nodes
        && s.nodes[s.pubKeyIdx[r.key]].sigVerified && !r.sigVerified)
    || (r.key !in s.pubKeyIdx && r.owner != "" && r.owner in s.ownerIdx && s.ownerIdx[r.owner] in s.nodes)
    || (r.key !in s.pubKeyIdx && !(r.owner != "" && r.owner in s.ownerIdx)
        && ((s.maxNodes > 0 && |s.nodes| >= s.maxNodes) || s.nextNode == 0))
  }

  /** The node a request is about: the key's, else the owner's, else a new one. */
  function Subject(s: State, r: Registration): NodeId {
    if r.key in s.pubKeyIdx then s.pubKeyIdx[r.key]
    else if r.owner != "" && r.owner in s.ownerIdx then s.ownerIdx[r.owner]
    else s.nextNode
  }

  /** A request is answered with its subject's id, unless there is a reason to refuse it, and
      then it changes nothing. */
  lemma AnswerExactly(s: State, r: Registration)
    requires 0 in s.networks
    ensures RegisterId(s, r) == if Refuses(s, r) then None else Some(Subject(s, r))
    ensures Refuses(s, r) ==> Register(s, r) == s
  {
  }

  /** The hostname a request leaves the node with: the one asked for, if it is free or the
      node's own, else the one it had. */
  function NameLeft(s: State, r: Registration, id: NodeId): string {
    if r.hostname != "" && (r.hostname !in s.hostnameIdx || s.hostnameIdx[r.hostname] == id) then r.hostname
    else if id in s.nodes then s.nodes[id].hostname
    else ""
  }

  /** A live node keeps its key, the owner it has and its proof, and takes the rest from the request. */
  predicate RefreshedNode(before: Node, n: Node, r: Registration) {
    && n.key == before.key && n.owner == (if before.owner != "" then before.owner else r.owner)
    && n.networks == before.networks && (n.sigVerified <==> before.sigVerified || r.sigVerified)
    && n.lastSeen == r.now
    && n.endpoint.addr == r.endpoint.addr && n.endpoint.lan == r.endpoint.lan
    && n.endpoint.relayOnly == r.endpoint.relayOnly
    && n.endpoint.version == (if r.endpoint.version != "" then r.endpoint.version else before.endpoint.version)
  }

  /** A node that was not live is the request's in everything. */
  predicate NewNode(n: Node, r: Registration) {
    && n.key == r.key && n.owner == r.owner && n.lastSeen == r.now && n.endpoint == r.endpoint
    && n.sigVerified == r.sigVerified && |n.networks| > 0 && n.networks[0] == 0
  }

  /** What an answered request does to the nodes and the identity indices. */
  ghost predicate Registers(s: State, t: State, r: Registration, id: NodeId) {
    && t.nodes.Keys == s.nodes.Keys + {id} && (forall n :: n in s.nodes && n != id ==> t.nodes[n] == s.nodes[n])
    && t.nodes[id].hostname == NameLeft(s, r, id)
    && (if id in s.nodes then RefreshedNode(s.nodes[id], t.nodes[id], r) else NewNode(t.nodes[id], r))
  }

  ghost predicate IndexesIdentity(s: State, t: State, r: Registration, id: NodeId) {
    && t.pubKeyIdx == s.pubKeyIdx[r.key := id]
    && t.ownerIdx == (if r.owner != "" && (id !in s.nodes || s.nodes[id].owner == "")
                      then s.ownerIdx[r.owner := id] else s.ownerIdx)
  }

  // --- the branches ---------------------------------------------------------------------------------

  lemma NamedBy(s: State, id: NodeId, hostname: string)
    requires id in s.nodes
    ensures var t := SetNodeHostname(s, id, hostname);
            var free := hostname != "" && (hostname !in s.hostnameIdx || s.hostnameIdx[hostname] == id);
            && t.nodes == s.nodes[id := s.nodes[id].(hostname := if free then hostname else s.nodes[id].hostname)]
            && t.pubKeyIdx == s.pubKeyIdx && t.ownerIdx == s.ownerIdx
  {
  }

  lemma ListsOnBackbone(s: State, id: NodeId)
    requires 0 in s.networks
    ensures var t := AddToBackbone(s, id);
            t.nodes == s.nodes && t.pubKeyIdx == s.pubKeyIdx && t.ownerIdx == s.ownerIdx
            && t.hostnameIdx == s.hostnameIdx
  {
  }

  lemma RevivedNode(s: State, r: Registration, id: NodeId, networks: seq<NetId>)
    requires 0 in s.networks && id !in s.nodes && |networks| > 0 && networks[0] == 0
    ensures var t := Revive(s, r, id, networks);
            Registers(s, t, r, id) && t.pubKeyIdx == s.pubKeyIdx && t.ownerIdx == s.ownerIdx
  {
    var s1 := WithNode(s, id, FreshNode(r, networks));
    ListsOnBackbone(s1, id);
    NamedBy(AddToBackbone(s1, id), id, r.hostname);
  }

  lemma FastRegisters(s: State, r: Registration)
    requires FastPathTaken(s, r)
    ensures Registers(s, FastPath(s, r), r, s.pubKeyIdx[r.key])
    ensures IndexesIdentity(s, FastPath(s, r), r, s.pubKeyIdx[r.key])
  {
  }

  /** The live node after the refresh and the claim of its owner. */
  function Claimed(s: State, r: Registration): Node
    requires IsKnownLive(s, r.key)
  {
    var n := Refresh(s.nodes[s.pubKeyIdx[r.key]], r);
    if r.owner != "" && n.owner == "" then n.(owner := r.owner) else n
  }

  lemma ClaimStores(s: State, r: Registration)
    requires IsKnownLive(s, r.key)
    ensures var id, u := s.pubKeyIdx[r.key], ClaimOwner(FastPath(s, r), s.pubKeyIdx[r.key], r.owner);
            && u.nodes == s.nodes[id := Claimed(s, r)] && u.hostnameIdx == s.hostnameIdx
            && IndexesIdentity(s, u, r, id)
  {
    var id := s.pubKeyIdx[r.key];
    assert s.pubKeyIdx[r.key := id] == s.pubKeyIdx;
  }

  lemma ClaimedIsRefreshed(before: Node, n: Node, r: Registration)
    requires n == Refresh(before, r).(owner := if r.owner != "" && before.owner == "" then r.owner else before.owner)
    ensures forall h: string :: RefreshedNode(before, n.(hostname := h), r)
  {
  }

  lemma SlowRegisters(s: State, r: Registration)
    requires IsKnownLive(s, r.key)
    ensures Registers(s, SlowPath(s, r), r, s.pubKeyIdx[r.key])
    ensures IndexesIdentity(s, SlowPath(s, r), r, s.pubKeyIdx[r.key])
  {
    var id := s.pubKeyIdx[r.key];
    var u := ClaimOwner(FastPath(s, r), id, r.owner);
    ClaimStores(s, r);
    ClaimedIsRefreshed(s.nodes[id], Claimed(s, r), r);
    NamedBy(u, id, r.hostname);
    SlowStores(s, r, id, Claimed(s, r), u, SlowPath(s, r));
  }

  lemma SlowStores(s: State, r: Registration, id: NodeId, n: Node, u: State, t: State)
    requires id in s.nodes && u.nodes == s.nodes[id := n] && u.hostnameIdx == s.hostnameIdx
    requires n.hostname == s.nodes[id].hostname && forall h: string :: RefreshedNode(s.nodes[id], n.(hostname := h), r)
    requires var free := r.hostname != "" && (r.hostname !in u.hostnameIdx || u.hostnameIdx[r.hostname] == id);
             t.nodes == u.nodes[id := n.(hostname := if free then r.hostname else n.hostname)]
    ensures Registers(s, t, r, id)
  {
    assert t.nodes[id] == n.(hostname := NameLeft(s, r, id));
  }

  lemma KeyRegisters(s: State, r: Registration)
    requires 0 in s.networks && r.key in s.pubKeyIdx && s.pubKeyIdx[r.key] !in s.nodes
    ensures Registers(s, KeyReclaim(s, r), r, s.pubKeyIdx[r.key])
    ensures IndexesIdentity(s, KeyReclaim(s, r), r, s.pubKeyIdx[r.key])
  {
    var id := s.pubKeyIdx[r.key];
    RevivedNode(if r.owner != "" then s.(ownerIdx := s.ownerIdx[r.owner := id]) else s, r, id, [0] + r.scan);
  }

  lemma OwnerRegisters(s: State, r: Registration)
    requires 0 in s.networks && r.owner != "" && r.owner in s.ownerIdx && s.ownerIdx[r.owner] !in s.nodes
    ensures Registers(s, OwnerReclaim(s, r), r, s.ownerIdx[r.owner])
    ensures IndexesIdentity(s, OwnerReclaim(s, r), r, s.ownerIdx[r.owner])
  {
    var id := s.ownerIdx[r.owner];
    RevivedNode(s.(pubKeyIdx := s.pubKeyIdx[r.key := id]), r, id, [0]);
  }

  lemma AllocateRegisters(s: State, r: Registration)
    requires 0 in s.networks && s.nextNode !in s.nodes
    ensures Registers(s, Allocate(s, r), r, s.nextNode) && IndexesIdentity(s, Allocate(s, r), r, s.nextNode)
  {
    RevivedNode(Reserve(s, r), r, s.nextNode, [0]);
  }

  // --- the law ---------------------------------------------------------------------------------------

  /** An answered request leaves its node live and as requested, its key and owner indexed under
      the answered id, and every other node as it was. */
  lemma AnsweredIsStored(s: State, r: Registration)
    requires Inv(s) && RegisterId(s, r).Some?
    ensures var id := RegisterId(s, r).value;
            Registers(s, Register(s, r), r, id) && IndexesIdentity(s, Register(s, r), r, id)
  {
    match RegisterPath(s, r)
    case Rejected => assert false;
    case Refreshed => if FastPathTaken(s, r) { FastRegisters(s, r); } else { SlowRegisters(s, r); }
    case KeyReclaimed => KeyRegisters(s, r);
    case OwnerReclaimed => OwnerRegisters(s, r);
    case Allocated =>
      assert s.nextNode in s.nodes ==> Issued(s, s.nextNode);
      AllocateRegisters(s, r);
  }

  /** The scan a reclaim goes by does not change that. */
  lemma AnsweredWithScan(s: State, r: Registration, scan: seq<NetId>)
    requires Inv(s)
    ensures var t, id := Register(s, r.(scan := scan)), Subject(s, r);
            && RegisterId(s, r) == (if Refuses(s, r) then None else Some(id))
            && (if Refuses(s, r) then t == s else Registers(s, t, r, id) && IndexesIdentity(s, t, r, id))
  {
    var q := r.(scan := scan);
    AnswerExactly(s, r);
    AnswerExactly(s, q);
    assert Refuses(s, q) == Refuses(s, r) && Subject(s, q) == Subject(s, r);
    if !Refuses(s, q) {
      AnsweredIsStored(s, q);
      SameRequest(s, Register(s, q), r, q, Subject(s, r));
    }
  }

  lemma SameRequest(s: State, t: State, r: Registration, q: Registration, id: NodeId)
    requires q == r.(scan := q.scan) && Registers(s, t, q, id) && IndexesIdentity(s, t, q, id)
    ensures Registers(s, t, r, id) && IndexesIdentity(s, t, r, id)
  {
  }

  /** The same key asked again, with a proof of possession, is answered the same id, and finds
      the node as the last request left it. */
  lemma AskedAgain(s: State, r: Registration, again: Registration)
    requires Inv(s) && RegisterEnabled(s, r) && RegisterId(s, r).Some?
    requires again.key == r.key && again.keyOk && again.sigVerified
    ensures RegisterId(Register(s, r), again) == RegisterId(s, r)
  {
    var id := RegisterId(s, r).value;
    AnsweredIsStored(s, r);
    RegisterKeeps(s, r);
    AnswerExactly(Register(s, r), again);
  }

  /** A key and an owner nobody holds are given the next id, as long as there is room. */
  lemma NewcomerIsAnswered(s: State, r: Registration)
    requires Inv(s) && r.keyOk && r.key !in s.pubKeyIdx && (r.owner == "" || r.owner !in s.ownerIdx)
    requires (s.maxNodes <= 0 || |s.nodes| < s.maxNodes) && s.nextNode != 0
    ensures RegisterId(s, r) == Some(s.nextNode) && s.nextNode !in s.nodes
    ensures Registers(s, Register(s, r), r, s.nextNode)
  {
    AnswerExactly(s, r);
    AnsweredIsStored(s, r);
    assert s.nextNode in s.nodes ==> Issued(s, s.nextNode);
  }
}
