/** The registry's in-memory state and the effect of every locked handler on it.

    A State holds the maps the server keeps redundantly: live nodes, networks,
    the three lookup indices, the invite inboxes and the two id counters. Each
    handler is a function from State to State; a rejected request returns its
    argument. Signature and token checks are boolean arguments. Where the source
    ranges over a map, the order it met is an argument as well, guarded by a
    predicate that accepts exactly the orders the range can produce.
  */
module Registry {
  import opened Options

  type NodeId = nat
  type NetId = nat

  const NODE_LIMIT: nat := 0x1_0000_0000  // node ids and nextNode are uint32
  const NET_LIMIT: nat := 0x1_0000        // network ids and nextNet are uint16
  const MAX_INVITE_INBOX: nat := 100
  const INVITE_TTL: int := 30 * 24 * 3600

  datatype Role = Owner | Admin | Member

  datatype Endpoint = Endpoint(addr: string, lan: seq<string>, version: string, relayOnly: bool)

  datatype Node = Node(
    key: string,
    owner: string,
    hostname: string,
    networks: seq<NetId>,
    lastSeen: int,
    endpoint: Endpoint,
    sigVerified: bool)

  datatype Network = Network(
    name: string,
    joinRule: string,
    token: string,
    enterprise: bool,
    maxMembers: int,
    members: seq<NodeId>,
    roles: map<NodeId, Role>)

  datatype Invite = Invite(net: NetId, inviter: NodeId, at: int)

  datatype State = State(
    nodes: map<NodeId, Node>,
    networks: map<NetId, Network>,
    pubKeyIdx: map<string, NodeId>,
    ownerIdx: map<string, NodeId>,
    hostnameIdx: map<string, NodeId>,
    invites: map<NodeId, seq<Invite>>,
    nextNode: NodeId,
    nextNet: NetId,
    maxNodes: int)

  // --- sequences -----------------------------------------------------------

  ghost predicate NoDup(s: seq<nat>) {
    forall i, j :: 0 <= i < j < |s| ==> s[i] != s[j]
  }

  /** The slice after the source's search loop has cut out the first match. */
  function RemoveFirst(s: seq<nat>, x: nat): (r: seq<nat>)
    ensures forall y :: y in r ==> y in s
    ensures forall y :: y in s && y != x ==> y in r
    ensures x !in s ==> r == s
  {
    if s == [] then []
    else if s[0] == x then s[1..]
    else [s[0]] + RemoveFirst(s[1..], x)
  }

  lemma {:induction false} RemoveFirstNoDup(s: seq<nat>, x: nat)
    requires NoDup(s)
    ensures NoDup(RemoveFirst(s, x)) && x !in RemoveFirst(s, x)
  {
    if s != [] {
      var tail := s[1..];
      assert s[0] !in tail;
      if s[0] != x {
        RemoveFirstNoDup(tail, x);
        assert s[0] !in RemoveFirst(tail, x);
      }
    }
  }

  function RemoveAll(s: seq<nat>, x: nat): (r: seq<nat>)
    ensures forall y :: y in r <==> y in s && y != x
  {
    if s == [] then []
    else if s[0] == x then RemoveAll(s[1..], x)
    else [s[0]] + RemoveAll(s[1..], x)
  }

  lemma {:induction false} RemoveAllNoDup(s: seq<nat>, x: nat)
    requires NoDup(s)
    ensures RemoveAll(s, x) == RemoveFirst(s, x)
  {
    if s != [] {
      var tail := s[1..];
      if s[0] == x {
        assert x !in tail;
        RemoveAllAbsent(tail, x);
      } else {
        RemoveAllNoDup(tail, x);
      }
    }
  }

  lemma {:induction false} RemoveAllAbsent(s: seq<nat>, x: nat)
    requires x !in s
    ensures RemoveAll(s, x) == s
  {
    if s != [] {
      RemoveAllAbsent(s[1..], x);
    }
  }

  lemma AppendNoDup(s: seq<nat>, x: nat)
    requires NoDup(s) && x !in s
    ensures NoDup(s + [x])
  {
  }

  // --- small state updates ---------------------------------------------------

  function WithNode(s: State, id: NodeId, n: Node): State {
    s.(nodes := s.nodes[id := n])
  }

  function WithNetwork(s: State, k: NetId, n: Network): State {
    s.(networks := s.networks[k := n])
  }

  /** Removes the first membership entry and the role of `id` in network `k`. */
  function DropMember(s: State, k: NetId, id: NodeId): State
    requires k in s.networks
  {
    var net := s.networks[k];
    WithNetwork(s, k, net.(members := RemoveFirst(net.members, id), roles := net.roles - {id}))
  }

  /** The RemoveNodeNetwork callback. */
  function DropNodeNetwork(s: State, id: NodeId, k: NetId): State {
    if id !in s.nodes then s
    else WithNode(s, id, s.nodes[id].(networks := RemoveFirst(s.nodes[id].networks, k)))
  }

  /** Appends `id` to the members of `k` as a plain member and `k` to the networks of `id`. */
  function Link(s: State, id: NodeId, k: NetId): State
    requires id in s.nodes && k in s.networks
  {
    var net := s.networks[k];
    var s1 := WithNetwork(s, k, net.(members := net.members + [id], roles := net.roles[id := Member]));
    WithNode(s1, id, s1.nodes[id].(networks := s1.nodes[id].networks + [k]))
  }

  /** The AddNodeToBackbone callback. */
  function AddToBackbone(s: State, id: NodeId): State
    requires 0 in s.networks
  {
    var net := s.networks[0];
    if id in net.members then s
    else WithNetwork(s, 0, net.(members := net.members + [id]))
  }

  // --- registration ----------------------------------------------------------

  /** A registration request; `keyOk` says the public key decodes, `scan` is the
      order in which the membership scan met the networks of a reaped node. */
  datatype Registration = Registration(
    key: string, keyOk: bool, owner: string, hostname: string,
    endpoint: Endpoint, sigVerified: bool, now: int, scan: seq<NetId>)

  datatype Path = Rejected | Refreshed | KeyReclaimed | OwnerReclaimed | Allocated

  function SetNodeHostname(s: State, id: NodeId, hostname: string): State
    requires id in s.nodes
  {
    if hostname == "" then s
    else if hostname in s.hostnameIdx && s.hostnameIdx[hostname] != id then s
    else ReplaceHostname(s, id, hostname)
  }

  function ReplaceHostname(s: State, id: NodeId, hostname: string): State
    requires id in s.nodes
  {
    var prev := s.nodes[id].hostname;
    var idx := if prev != "" then s.hostnameIdx - {prev} else s.hostnameIdx;
    s.(nodes := s.nodes[id := s.nodes[id].(hostname := hostname)],
       hostnameIdx := if hostname != "" then idx[hostname := id] else idx)
  }

  predicate IsKnownLive(s: State, key: string) {
    key in s.pubKeyIdx && s.pubKeyIdx[key] in s.nodes
  }

  /** The endpoint fields a re-registration overwrites. */
  function Refresh(n: Node, r: Registration): Node {
    n.(lastSeen := r.now,
       endpoint := r.endpoint.(version := if r.endpoint.version != "" then r.endpoint.version else n.endpoint.version),
       sigVerified := n.sigVerified || r.sigVerified)
  }

  predicate FastPathTaken(s: State, r: Registration) {
    IsKnownLive(s, r.key) &&
    var n := s.nodes[s.pubKeyIdx[r.key]];
    !(r.owner != "" && n.owner == "") && !(r.hostname != "" && r.hostname != n.hostname)
  }

  function FastPath(s: State, r: Registration): State
    requires IsKnownLive(s, r.key)
  {
    var id := s.pubKeyIdx[r.key];
    WithNode(s, id, Refresh(s.nodes[id], r))
  }

  /** Binds an owner to a node that has none. */
  function ClaimOwner(s: State, id: NodeId, owner: string): State
    requires id in s.nodes
  {
    if owner != "" && s.nodes[id].owner == "" then
      WithNode(s, id, s.nodes[id].(owner := owner)).(ownerIdx := s.ownerIdx[owner := id])
    else s
  }

  function SlowPath(s: State, r: Registration): State
    requires IsKnownLive(s, r.key)
  {
    var id := s.pubKeyIdx[r.key];
    SetNodeHostname(ClaimOwner(FastPath(s, r), id, r.owner), id, r.hostname)
  }

  function FreshNode(r: Registration, networks: seq<NetId>): Node {
    Node(r.key, r.owner, "", networks, r.now, r.endpoint, r.sigVerified)
  }

  /** Exactly the networks other than the backbone that list `id`, in some order. */
  ghost predicate IsScan(s: State, id: NodeId, scan: seq<NetId>) {
    && NoDup(scan)
    && forall k :: k in scan <==> k != 0 && k in s.networks && id in s.networks[k].members
  }

  function Revive(s: State, r: Registration, id: NodeId, networks: seq<NetId>): State
    requires 0 in s.networks
  {
    var s1 := WithNode(s, id, FreshNode(r, networks));
    SetNodeHostname(AddToBackbone(s1, id), id, r.hostname)
  }

  function KeyReclaim(s: State, r: Registration): State
    requires r.key in s.pubKeyIdx && 0 in s.networks
  {
    var id := s.pubKeyIdx[r.key];
    var s1 := if r.owner != "" then s.(ownerIdx := s.ownerIdx[r.owner := id]) else s;
    Revive(s1, r, id, [0] + r.scan)
  }

  function OwnerReclaim(s: State, r: Registration): State
    requires r.owner in s.ownerIdx && 0 in s.networks
  {
    var id := s.ownerIdx[r.owner];
    Revive(s.(pubKeyIdx := s.pubKeyIdx[r.key := id]), r, id, [0])
  }

  /** Takes the next id and indexes the request's key and owner under it. */
  function Reserve(s: State, r: Registration): State {
    s.(nextNode := (s.nextNode + 1) % NODE_LIMIT,
       pubKeyIdx := s.pubKeyIdx[r.key := s.nextNode],
       ownerIdx := if r.owner != "" then s.ownerIdx[r.owner := s.nextNode] else s.ownerIdx)
  }

  function Allocate(s: State, r: Registration): State
    requires 0 in s.networks
  {
    Revive(Reserve(s, r), r, s.nextNode, [0])
  }

  /** Which branch of the registration handler a request takes. */
  function RegisterPath(s: State, r: Registration): Path {
    if !r.keyOk then Rejected
    else if IsKnownLive(s, r.key) then
      if !r.sigVerified && s.nodes[s.pubKeyIdx[r.key]].sigVerified then Rejected else Refreshed
    else if r.key in s.pubKeyIdx then KeyReclaimed
    else if r.owner != "" && r.owner in s.ownerIdx then
      if s.ownerIdx[r.owner] in s.nodes then Rejected else OwnerReclaimed
    else if s.maxNodes > 0 && |s.nodes| >= s.maxNodes then Rejected
    else if s.nextNode == 0 then Rejected
    else Allocated
  }

  ghost predicate RegisterEnabled(s: State, r: Registration) {
    && 0 in s.networks
    && (RegisterPath(s, r) == KeyReclaimed ==> IsScan(s, s.pubKeyIdx[r.key], r.scan))
  }

  function Register(s: State, r: Registration): State
    requires 0 in s.networks
  {
    match RegisterPath(s, r)
    case Rejected => s
    case Refreshed => if FastPathTaken(s, r) then FastPath(s, r) else SlowPath(s, r)
    case KeyReclaimed => KeyReclaim(s, r)
    case OwnerReclaimed => OwnerReclaim(s, r)
    case Allocated => Allocate(s, r)
  }

  /** The node id of a successful response. */
  function RegisterId(s: State, r: Registration): Option<NodeId> {
    match RegisterPath(s, r)
    case Rejected => None
    case Refreshed => Some(s.pubKeyIdx[r.key])
    case KeyReclaimed => Some(s.pubKeyIdx[r.key])
    case OwnerReclaimed => Some(s.ownerIdx[r.owner])
    case Allocated => Some(s.nextNode)
  }

  // --- other directory handlers ------------------------------------------------

  function SetHostname(s: State, id: NodeId, hostname: string, authorized: bool): State {
    if id !in s.nodes || !authorized then s
    else if hostname != "" && hostname in s.hostnameIdx && s.hostnameIdx[hostname] != id then s
    else ReplaceHostname(s, id, hostname)
  }

  function Heartbeat(s: State, id: NodeId, now: int, authorized: bool): State {
    if id !in s.nodes || !authorized then s
    else WithNode(s, id, s.nodes[id].(lastSeen := now))
  }

  /** The RemoveFromNetworks callback, over the node's own network list. */
  function DropFromNetworks(s: State, id: NodeId, networks: seq<NetId>): (r: State)
    ensures r.nodes == s.nodes && r.networks.Keys == s.networks.Keys
    ensures r == s.(networks := r.networks)
    decreases |networks|
  {
    if networks == [] then s
    else
      var s1 := if networks[0] in s.networks then DropMember(s, networks[0], id) else s;
      DropFromNetworks(s1, id, networks[1..])
  }

  function KeepInvites(invites: seq<Invite>, keep: Invite -> bool): (r: seq<Invite>)
    ensures forall i :: i in r <==> i in invites && keep(i)
  {
    if invites == [] then []
    else if keep(invites[0]) then [invites[0]] + KeepInvites(invites[1..], keep)
    else KeepInvites(invites[1..], keep)
  }

  /** Filters every inbox and drops the inboxes the filter empties. */
  function FilterInboxes(m: map<NodeId, seq<Invite>>, keep: Invite -> bool): map<NodeId, seq<Invite>> {
    map t | t in m && KeepInvites(m[t], keep) != [] :: KeepInvites(m[t], keep)
  }

  /** Filters the inbox of one node. */
  function FilterInbox(m: map<NodeId, seq<Invite>>, t: NodeId, keep: Invite -> bool): map<NodeId, seq<Invite>> {
    if t !in m then m
    else if KeepInvites(m[t], keep) == [] then m - {t}
    else m[t := KeepInvites(m[t], keep)]
  }

  function Deregister(s: State, id: NodeId, authorized: bool): State {
    if id !in s.nodes || !authorized then s
    else
      var n := s.nodes[id];
      var s1 := DropFromNetworks(s, id, n.networks);
      s1.(invites := FilterInboxes(s1.invites - {id}, (i: Invite) => i.inviter != id),
          hostnameIdx := if n.hostname != "" then s1.hostnameIdx - {n.hostname} else s1.hostnameIdx,
          nodes := s1.nodes - {id})
  }

  /** One deletion of the reaper's third phase, with its staleness re-check. The
      hostname it unindexes is the one the earlier scan `saw`. */
  function ReapSeen(s: State, id: NodeId, saw: string, threshold: int): State {
    if id !in s.nodes || s.nodes[id].lastSeen >= threshold then s
    else
      var s1 := if 0 in s.networks
                then WithNetwork(s, 0, s.networks[0].(members := RemoveFirst(s.networks[0].members, id)))
                else s;
      s1.(hostnameIdx := if saw != "" then s1.hostnameIdx - {saw} else s1.hostnameIdx,
          nodes := s1.nodes - {id})
  }

  /** Scan and deletion of one node as a single step. */
  function Reap(s: State, id: NodeId, threshold: int): State {
    if id !in s.nodes then s else ReapSeen(s, id, s.nodes[id].hostname, threshold)
  }

  /** UpdateNodeKey and ForceRotateKey; the latter carries no expected key. */
  function RotateKey(s: State, id: NodeId, expected: Option<string>, key: string, now: int): State {
    if id !in s.nodes then s
    else if expected.Some? && s.nodes[id].key != expected.value then s
    else WithNode(s, id, s.nodes[id].(key := key, lastSeen := now))
  }

  /** The OnKeyRotated callback, a separate locked section after RotateKey. */
  function IndexRotation(s: State, id: NodeId, prev: string, key: string): State {
    s.(pubKeyIdx := (s.pubKeyIdx - {prev})[key := id])
  }

  // --- membership handlers -------------------------------------------------------

  function CreateNetwork(s: State, id: NodeId, name: string, joinRule: string, token: string,
                         enterprise: bool, authorized: bool): State {
    var rule := if joinRule == "" then "open" else joinRule;
    if !authorized || (rule == "invite" && !enterprise) then s
    else if id !in s.nodes || s.nextNet == 0 then s
    else if exists k :: k in s.networks && s.networks[k].name == name then s
    else
      var k := s.nextNet;
      var net := Network(name, rule, token, enterprise, 0, [id], map[id := Owner]);
      var s1 := WithNetwork(s, k, net).(nextNet := (k + 1) % NET_LIMIT);
      WithNode(s1, id, s1.nodes[id].(networks := s1.nodes[id].networks + [k]))
  }

  predicate HasRoom(net: Network) {
    net.maxMembers <= 0 || |net.members| < net.maxMembers
  }

  predicate JoinAllowed(s: State, id: NodeId, k: NetId, token: string) {
    && k != 0 && id in s.nodes && k in s.networks
    && (s.networks[k].joinRule == "open" || (s.networks[k].joinRule == "token" && token == s.networks[k].token))
    && HasRoom(s.networks[k])
    && k !in s.nodes[id].networks
  }

  function Join(s: State, id: NodeId, k: NetId, token: string, authorized: bool): State {
    if authorized && JoinAllowed(s, id, k, token) then Link(s, id, k) else s
  }

  predicate LeaveAllowed(s: State, id: NodeId, k: NetId) {
    && k != 0 && id in s.nodes && k in s.networks
    && !(s.networks[k].enterprise && id in s.networks[k].roles && s.networks[k].roles[id] == Owner)
    && k in s.nodes[id].networks
  }

  function Leave(s: State, id: NodeId, k: NetId, authorized: bool): State {
    if !authorized || !LeaveAllowed(s, id, k) then s
    else
      var s1 := DropMember(DropNodeNetwork(s, id, k), k, id);
      var own := FilterInbox(s1.invites, id, (i: Invite) => i.net != k);
      s1.(invites := FilterInboxes(own, (i: Invite) => !(i.net == k && i.inviter == id)))
  }

  /** RemoveNodeNetwork for every listed member. */
  function DropNodeNetworks(s: State, members: seq<NodeId>, k: NetId): (r: State)
    ensures r.networks == s.networks && r.nodes.Keys == s.nodes.Keys
    ensures r == s.(nodes := r.nodes)
    decreases |members|
  {
    if members == [] then s
    else DropNodeNetworks(DropNodeNetwork(s, members[0], k), members[1..], k)
  }

  function DeleteNetwork(s: State, k: NetId, authorized: bool): State {
    if k == 0 || !authorized || k !in s.networks then s
    else
      var s1 := DropNodeNetworks(s, s.networks[k].members, k);
      s1.(invites := FilterInboxes(s1.invites, (i: Invite) => i.net != k),
          networks := s1.networks - {k})
  }

  predicate HasOwner(roles: map<NodeId, Role>) {
    exists n :: n in roles && roles[n] == Owner
  }

  /** The loop that gives every unlisted member a role, the first one the owner's if none is held. */
  function AssignRoles(members: seq<NodeId>, roles: map<NodeId, Role>, hasOwner: bool): map<NodeId, Role> {
    if members == [] then roles
    else if members[0] in roles then AssignRoles(members[1..], roles, hasOwner)
    else AssignRoles(members[1..], roles[members[0] := if hasOwner then Member else Owner], true)
  }

  function SetEnterprise(s: State, k: NetId, enterprise: bool, authorized: bool): State {
    if k == 0 || !authorized || k !in s.networks then s
    else
      var net := s.networks[k];
      var roles := if !enterprise then map[] else AssignRoles(net.members, net.roles, HasOwner(net.roles));
      WithNetwork(s, k, net.(enterprise := enterprise, roles := roles))
  }

  /** `operator` says the caller holds the admin token or the network's own token. */
  predicate MayInvite(net: Network, inviter: NodeId, operator: bool) {
    operator || (inviter in net.members && inviter in net.roles && net.roles[inviter] != Member)
  }

  function InboxOf(s: State, id: NodeId): seq<Invite> {
    if id in s.invites then s.invites[id] else []
  }

  function InviteTo(s: State, inviter: NodeId, k: NetId, target: NodeId, now: int, operator: bool, authorized: bool): State {
    if !authorized || k !in s.networks then s
    else if !s.networks[k].enterprise || s.networks[k].joinRule != "invite" then s
    else if !MayInvite(s.networks[k], inviter, operator) then s
    else if target !in s.nodes || k in s.nodes[target].networks then s
    else if exists i :: i in InboxOf(s, target) && i.net == k then s
    else if |InboxOf(s, target)| >= MAX_INVITE_INBOX then s
    else s.(invites := s.invites[target := InboxOf(s, target) + [Invite(k, inviter, now)]])
  }

  predicate Expired(i: Invite, now: int) {
    now - i.at > INVITE_TTL
  }

  /** Polling drops the expired invites and, unlike the filters, keeps an inbox it empties. */
  function PollInvites(s: State, id: NodeId, now: int, authorized: bool): State {
    if id !in s.nodes || !authorized || !exists i :: i in InboxOf(s, id) && Expired(i, now) then s
    else s.(invites := s.invites[id := KeepInvites(InboxOf(s, id), (i: Invite) => !Expired(i, now))])
  }

  /** The first invite to `k`, which is the one the handler looks at. */
  function FindInvite(inbox: seq<Invite>, k: NetId): Option<Invite> {
    if inbox == [] then None
    else if inbox[0].net == k then Some(inbox[0])
    else FindInvite(inbox[1..], k)
  }

  predicate AcceptAllowed(s: State, id: NodeId, k: NetId) {
    && id in s.nodes && k in s.networks && s.networks[k].enterprise
    && HasRoom(s.networks[k]) && k !in s.nodes[id].networks
  }

  function RespondInvite(s: State, id: NodeId, k: NetId, accept: bool, now: int, authorized: bool): State {
    var inv := FindInvite(InboxOf(s, id), k);
    if !authorized || id !in s.nodes || inv.None? || Expired(inv.value, now) then s
    else if accept && !AcceptAllowed(s, id, k) then s
    else
      var s1 := if accept then Link(s, id, k) else s;
      s1.(invites := FilterInbox(s1.invites, id, (i: Invite) => i.net != k))
  }

  predicate HoldsRole(net: Network, id: NodeId, role: Role) {
    id in net.roles && net.roles[id] == role
  }

  function Kick(s: State, k: NetId, target: NodeId, caller: NodeId, authorized: bool): State {
    if k == 0 || !authorized || k !in s.networks then s
    else
      var net := s.networks[k];
      if HoldsRole(net, target, Owner) then s
      else if HoldsRole(net, caller, Admin) && HoldsRole(net, target, Admin) then s
      else if target !in net.members then s
      else
        var s1 := DropNodeNetwork(DropMember(s, k, target), target, k);
        var own := FilterInbox(s1.invites, target, (i: Invite) => i.net != k);
        s1.(invites := FilterInboxes(own, (i: Invite) => !(i.net == k && i.inviter == target)))
  }

  /** Promote and demote: `from` must be held and becomes `to`. */
  function ChangeRole(s: State, k: NetId, target: NodeId, from: Role, to: Role, authorized: bool): State {
    if k == 0 || !authorized || k !in s.networks || !HoldsRole(s.networks[k], target, from) then s
    else WithNetwork(s, k, s.networks[k].(roles := s.networks[k].roles[target := to]))
  }

  /** `current` is the owner the range over the role map stopped at. */
  function Transfer(s: State, k: NetId, next: NodeId, current: NodeId, authorized: bool): State {
    if k == 0 || next == 0 || current == 0 || !authorized || k !in s.networks then s
    else
      var net := s.networks[k];
      if !HoldsRole(net, current, Owner) || next == current || next !in net.roles then s
      else WithNetwork(s, k, net.(roles := net.roles[current := Admin][next := Owner]))
  }

  function AdminKick(s: State, k: NetId, id: NodeId): State {
    if k !in s.networks || HoldsRole(s.networks[k], id, Owner) || id !in s.networks[k].members then s
    else
      var s1 := DropMember(s, k, id);
      if id !in s1.nodes then s1
      else WithNode(s1, id, s1.nodes[id].(networks := RemoveAll(s1.nodes[id].networks, k)))
  }

  function AdminSetRole(s: State, k: NetId, id: NodeId, role: Role): State {
    if role == Owner || k !in s.networks then s
    else if HoldsRole(s.networks[k], id, Owner) || id !in s.networks[k].members then s
    else WithNetwork(s, k, s.networks[k].(roles := s.networks[k].roles[id := role]))
  }

  // --- the state machine ---------------------------------------------------------

  datatype NodeOp =
    | OpSetHostname(id: NodeId, hostname: string, authorized: bool)
    | OpHeartbeat(id: NodeId, now: int, authorized: bool)
    | OpDeregister(id: NodeId, authorized: bool)
    | OpReap(id: NodeId, threshold: int)
    | OpRotateKey(id: NodeId, expected: Option<string>, key: string, now: int)

  datatype NetworkOp =
    | OpCreate(id: NodeId, name: string, joinRule: string, token: string, enterprise: bool, authorized: bool)
    | OpJoin(id: NodeId, net: NetId, token: string, authorized: bool)
    | OpLeave(id: NodeId, net: NetId, authorized: bool)
    | OpDelete(net: NetId, authorized: bool)
    | OpSetEnterprise(net: NetId, enterprise: bool, authorized: bool)
    | OpInvite(inviter: NodeId, net: NetId, target: NodeId, now: int, operator: bool, authorized: bool)
    | OpRespond(id: NodeId, net: NetId, accept: bool, now: int, authorized: bool)
    | OpPoll(id: NodeId, now: int, authorized: bool)

  datatype RoleOp =
    | OpKick(net: NetId, target: NodeId, caller: NodeId, authorized: bool)
    | OpPromote(net: NetId, target: NodeId, authorized: bool)
    | OpDemote(net: NetId, target: NodeId, authorized: bool)
    | OpTransfer(net: NetId, next: NodeId, current: NodeId, authorized: bool)
    | OpAdminKick(net: NetId, target: NodeId)
    | OpAdminSetRole(net: NetId, target: NodeId, role: Role)

  datatype Op =
    | RegisterStep(r: Registration)
    | IndexStep(id: NodeId, prev: string, key: string)
    | NodeStep(nodeOp: NodeOp)
    | NetworkStep(networkOp: NetworkOp)
    | RoleStep(roleOp: RoleOp)

  /** One past the largest id the counter can have handed out; a wrapped counter reads 0. */
  function Bound(s: State): nat {
    if s.nextNode == 0 then NODE_LIMIT else s.nextNode
  }

  predicate Issued(s: State, id: NodeId) {
    0 < id < Bound(s)
  }

  /** What the code guarantees about the arguments of a step: the scan of a key
      reclaim is a real scan, and a rotation indexes an id that was allocated. */
  ghost predicate Enabled(s: State, op: Op) {
    match op
    case RegisterStep(r) => RegisterEnabled(s, r)
    case IndexStep(id, prev, key) => Issued(s, id)
    case _ => true
  }

  function ApplyNode(s: State, op: NodeOp): State {
    match op
    case OpSetHostname(id, h, a) => SetHostname(s, id, h, a)
    case OpHeartbeat(id, now, a) => Heartbeat(s, id, now, a)
    case OpDeregister(id, a) => Deregister(s, id, a)
    case OpReap(id, t) => Reap(s, id, t)
    case OpRotateKey(id, e, key, now) => RotateKey(s, id, e, key, now)
  }

  function ApplyNetwork(s: State, op: NetworkOp): State {
    match op
    case OpCreate(id, name, rule, tok, ent, a) => CreateNetwork(s, id, name, rule, tok, ent, a)
    case OpJoin(id, k, tok, a) => Join(s, id, k, tok, a)
    case OpLeave(id, k, a) => Leave(s, id, k, a)
    case OpDelete(k, a) => DeleteNetwork(s, k, a)
    case OpSetEnterprise(k, e, a) => SetEnterprise(s, k, e, a)
    case OpInvite(inv, k, t, now, o, a) => InviteTo(s, inv, k, t, now, o, a)
    case OpRespond(id, k, acc, now, a) => RespondInvite(s, id, k, acc, now, a)
    case OpPoll(id, now, a) => PollInvites(s, id, now, a)
  }

  function ApplyRole(s: State, op: RoleOp): State {
    match op
    case OpKick(k, t, c, a) => Kick(s, k, t, c, a)
    case OpPromote(k, t, a) => ChangeRole(s, k, t, Member, Admin, a)
    case OpDemote(k, t, a) => ChangeRole(s, k, t, Admin, Member, a)
    case OpTransfer(k, n, c, a) => Transfer(s, k, n, c, a)
    case OpAdminKick(k, t) => AdminKick(s, k, t)
    case OpAdminSetRole(k, t, role) => AdminSetRole(s, k, t, role)
  }

  function Apply(s: State, op: Op): State
    requires 0 in s.networks
  {
    match op
    case RegisterStep(r) => Register(s, r)
    case IndexStep(id, prev, key) => IndexRotation(s, id, prev, key)
    case NodeStep(d) => ApplyNode(s, d)
    case NetworkStep(d) => ApplyNetwork(s, d)
    case RoleStep(d) => ApplyRole(s, d)
  }

  const Initial := State(map[], map[0 := Network("backbone", "open", "", false, 0, [], map[])],
                         map[], map[], map[], map[], 1, 1, 1_000_000)
}
