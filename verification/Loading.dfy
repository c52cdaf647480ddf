/** What loading a snapshot makes of the state it was written from: rebuilt indices, no
    signature flags, and roles for networks that were saved without any. */
module Loading {
  import opened Options
  import opened Registry
  import opened RegistryInvariants
  import opened Overlap
  import opened DeltaReplay

  // --- roles for networks saved without any ------------------------------------------------

  /** The first member becomes the owner and the others members, in list order. */
  function Backfill(members: seq<NodeId>): (r: map<NodeId, Role>)
    ensures forall n :: n in r <==> n in members
    ensures forall n :: n in r ==> r[n] != Admin
  {
    if members == [] then map[]
    else
      var i := |members| - 1;
      assert members == members[..i] + [members[i]];
      Backfill(members[..i])[members[i] := if i == 0 then Owner else Member]
  }

  lemma {:induction false} BackfillOwner(members: seq<NodeId>)
    requires NoDup(members) && members != []
    ensures Backfill(members)[members[0]] == Owner
    ensures forall n :: n in members && n != members[0] ==> Backfill(members)[n] == Member
  {
    var i := |members| - 1;
    if i > 0 { BackfillOwner(members[..i]); }
    assert members == members[..i] + [members[i]];
  }

  predicate Roleless(k: NetId, net: Network) {
    k != 0 && net.members != [] && net.roles == map[]
  }

  function LoadedNetwork(k: NetId, net: Network): Network {
    if Roleless(k, net) then net.(roles := Backfill(net.members)) else net
  }

  // --- indices from the nodes, in the order the map range met them ---------------------------

  datatype Indices = Indices(keys: map<string, NodeId>, owners: map<string, NodeId>, hosts: map<string, NodeId>)

  function IndexOne(ix: Indices, id: NodeId, n: Node): Indices {
    Indices(ix.keys[n.key := id],
            if n.owner != "" then ix.owners[n.owner := id] else ix.owners,
            if n.hostname != "" then ix.hosts[n.hostname := id] else ix.hosts)
  }

  function IndexNodes(nodes: map<NodeId, Node>, order: seq<NodeId>): Indices {
    if order == [] then Indices(map[], map[], map[])
    else
      var i := |order| - 1;
      var ix := IndexNodes(nodes, order[..i]);
      if order[i] in nodes then IndexOne(ix, order[i], nodes[order[i]]) else ix
  }

  function Unsigned(nodes: map<NodeId, Node>): map<NodeId, Node> {
    map n | n in nodes :: nodes[n].(sigVerified := false)
  }

  function Loaded(s: State, order: seq<NodeId>): State {
    var ix := IndexNodes(s.nodes, order);
    s.(nodes := Unsigned(s.nodes),
       networks := map k | k in s.networks :: LoadedNetwork(k, s.networks[k]),
       pubKeyIdx := s.pubKeyIdx + ix.keys,
       ownerIdx := ix.owners,
       hostnameIdx := ix.hosts,
       invites := map t | t in s.invites && t != 0 :: s.invites[t])
  }

  // --- a valid state loads into a valid state --------------------------------------------------

  ghost predicate Ranges(order: seq<NodeId>, nodes: map<NodeId, Node>) {
    NoDup(order) && forall n :: n in order <==> n in nodes
  }

  /** What the indices of the nodes in `order` hold. */
  ghost predicate Indexes(ix: Indices, nodes: map<NodeId, Node>, order: seq<NodeId>)
    requires forall n :: n in order ==> n in nodes
  {
    && (forall p :: p in ix.keys ==> ix.keys[p] in order)
    && (forall o :: o in ix.owners ==> ix.owners[o] in order)
    && (forall h :: h in ix.hosts ==> ix.hosts[h] in order)
    && (forall h :: h in ix.hosts ==> h != "" && nodes[ix.hosts[h]].hostname == h)
    && (forall n :: n in order && nodes[n].hostname != "" ==> nodes[n].hostname in ix.hosts)
  }

  lemma {:induction false} IndexedNames(nodes: map<NodeId, Node>, order: seq<NodeId>)
    requires forall n :: n in order ==> n in nodes
    ensures Indexes(IndexNodes(nodes, order), nodes, order)
  {
    if order != [] {
      var i := |order| - 1;
      assert order == order[..i] + [order[i]];
      IndexedNames(nodes, order[..i]);
    }
  }

  /** Whatever the order of the range, the hostname index comes back as it was. */
  lemma LoadedHosts(s: State, order: seq<NodeId>)
    requires HostsInverse(s) && Ranges(order, s.nodes)
    ensures Loaded(s, order).hostnameIdx == s.hostnameIdx
  {
    IndexedNames(s.nodes, order);
    var ix := IndexNodes(s.nodes, order);
    assert Indexes(ix, s.nodes, order);
    forall h | h in s.hostnameIdx ensures h in ix.hosts && ix.hosts[h] == s.hostnameIdx[h] {
      assert s.hostnameIdx[h] in order;
      assert ix.hosts[h] in order;
    }
    forall h | h in ix.hosts ensures h in s.hostnameIdx {
      assert ix.hosts[h] in order;
      assert s.nodes[ix.hosts[h]].hostname == h;
    }
    assert ix.hosts == s.hostnameIdx;
  }

  lemma LoadedSameEdges(s: State, order: seq<NodeId>, n: NodeId, k: NetId)
    ensures var t := Loaded(s, order);
            && (Points(t, n, k) <==> Points(s, n, k)) && (Lists(t, k, n) <==> Lists(s, k, n))
            && (Ranks(t, k, n) <==> Ranks(s, k, n) || (k in s.networks && Roleless(k, s.networks[k]) && n in s.networks[k].members))
  {
  }

  lemma LoadedRoles(s: State, order: seq<NodeId>, k: NetId)
    requires RolesOk(s) && k in s.networks && NoDup(s.networks[k].members)
    ensures OneOwnerAtMost(Loaded(s, order).networks[k].roles)
  {
    var net := s.networks[k];
    if Roleless(k, net) { BackfillOwner(net.members); }
  }

  lemma LoadedIndices(s: State, order: seq<NodeId>)
    requires IndicesIssued(s) && Ranges(order, s.nodes) && forall n :: n in s.nodes ==> Issued(s, n)
    ensures IndicesIssued(Loaded(s, order))
  {
    var t := Loaded(s, order);
    IndexedNames(s.nodes, order);
    var ix := IndexNodes(s.nodes, order);
    assert Indexes(ix, s.nodes, order);
    assert forall n :: Issued(t, n) == Issued(s, n);
    forall p | p in t.pubKeyIdx ensures Issued(t, t.pubKeyIdx[p]) {
      if p in ix.keys { assert ix.keys[p] in order; } else { assert p in s.pubKeyIdx; }
    }
    forall o | o in t.ownerIdx ensures Issued(t, t.ownerIdx[o]) { assert ix.owners[o] in order; }
    forall h | h in t.hostnameIdx ensures Issued(t, t.hostnameIdx[h]) { assert ix.hosts[h] in order; }
  }

  lemma LoadedIssued(s: State, order: seq<NodeId>)
    requires IdsIssued(s) && Ranges(order, s.nodes)
    ensures IdsIssued(Loaded(s, order))
  {
    var t := Loaded(s, order);
    LoadedIndices(s, order);
    assert forall n :: Issued(t, n) == Issued(s, n);
    forall k, n | Lists(t, k, n) ensures Issued(t, n) { LoadedSameEdges(s, order, n, k); }
    forall k, n | Ranks(t, k, n) ensures Issued(t, n) {
      LoadedSameEdges(s, order, n, k);
      assert Ranks(s, k, n) || Lists(s, k, n);
    }
  }

  /** A snapshot of a valid state loads into a valid state. */
  lemma LoadedKeeps(s: State, order: seq<NodeId>)
    requires Inv(s) && Tight(s) && Ranges(order, s.nodes)
    ensures Inv(Loaded(s, order)) && Tight(Loaded(s, order))
  {
    var t := Loaded(s, order);
    LoadedHosts(s, order);
    LoadedIssued(s, order);
    forall n: NodeId, k: NetId ensures Points(t, n, k) == Points(s, n, k) && Lists(t, k, n) == Lists(s, k, n) {
      LoadedSameEdges(s, order, n, k);
    }
    forall k | k in t.networks ensures OneOwnerAtMost(t.networks[k].roles) { LoadedRoles(s, order, k); }
    forall k: NetId, n: NodeId | Ranks(t, k, n) && k != 0 ensures Lists(t, k, n) { LoadedSameEdges(s, order, n, k); }
  }

  // --- on the projection -------------------------------------------------------------------------

  /** Gives the listed edges without a role the one `fill` has for them. */
  function Paint(v: View, fill: map<Edge, Role>): View {
    v.(lists := map e | e in v.lists :: if v.lists[e] == None && e in fill then Some(fill[e]) else v.lists[e])
  }

  ghost predicate OffBackbone(fill: map<Edge, Role>) {
    forall e :: e in fill ==> e.1 != 0
  }

  /** The roles loading a snapshot of `s` makes up. */
  ghost function Fill(s: State): (fill: map<Edge, Role>)
    ensures OffBackbone(fill)
  {
    map n, k | k in s.networks && Roleless(k, s.networks[k]) && n in s.networks[k].members ::
      (n, k) := Backfill(s.networks[k].members)[n]
  }

  /** Loading changes the projection by those roles and nothing else. */
  lemma LoadedProjects(s: State, order: seq<NodeId>)
    ensures Project(Loaded(s, order)) == Paint(Project(s), Fill(s))
  {
    ProjectMatches(s);
    LoadedMatches(s, order, Project(s), Fill(s));
    MatchesIsProject(Loaded(s, order), Paint(Project(s), Fill(s)));
  }

  lemma LoadedMatches(s: State, order: seq<NodeId>, v: View, fill: map<Edge, Role>)
    requires Matches(s, v) && fill == Fill(s)
    ensures Matches(Loaded(s, order), Paint(v, fill))
  {
    var t, w := Loaded(s, order), Paint(v, fill);
    forall n: NodeId ensures NodeMatches(t, w, n) { assert NodeMatches(s, v, n); }
    forall n: NodeId, k: NetId ensures EdgeMatches(t, w, n, k) {
      assert EdgeMatches(s, v, n, k);
      LoadedEdge(s, order, v, fill, n, k);
    }
    assert t.networks.Keys == s.networks.Keys;
  }

  ghost predicate FillsAt(s: State, fill: map<Edge, Role>, n: NodeId, k: NetId) {
    && ((n, k) in fill <==> Lists(s, k, n) && Roleless(k, s.networks[k]))
    && ((n, k) in fill ==> fill[(n, k)] == Backfill(s.networks[k].members)[n])
  }

  lemma FillAt(s: State, n: NodeId, k: NetId)
    ensures FillsAt(s, Fill(s), n, k)
  {
  }

  lemma LoadedEdge(s: State, order: seq<NodeId>, v: View, fill: map<Edge, Role>, n: NodeId, k: NetId)
    requires EdgeMatches(s, v, n, k) && fill == Fill(s)
    ensures EdgeMatches(Loaded(s, order), Paint(v, fill), n, k)
  {
    FillAt(s, n, k);
    LoadedSameEdges(s, order, n, k);
    LoadedSeen(s, order, fill, n, k);
  }

  lemma LoadedSeen(s: State, order: seq<NodeId>, fill: map<Edge, Role>, n: NodeId, k: NetId)
    requires FillsAt(s, fill, n, k)
    ensures Lists(s, k, n) ==>
              RoleSeen(Loaded(s, order).networks[k], k, n) ==
              if (n, k) in fill then Some(fill[(n, k)]) else RoleSeen(s.networks[k], k, n)
    ensures Lists(s, k, n) && (n, k) in fill ==> RoleSeen(s.networks[k], k, n) == None
  {
  }

  lemma LoadedClean(s: State, order: seq<NodeId>)
    requires Clean(s) && 0 in s.networks
    ensures Clean(Loaded(s, order)) && 0 in Loaded(s, order).networks
  {
  }

  /** Replay never looks at a role, so made-up roles pass through it. */
  lemma PaintStep(v: View, d: Delta, fill: map<Edge, Role>)
    requires OffBackbone(fill)
    ensures Step(Paint(v, fill), d) == Paint(Step(v, d), fill)
    ensures Recordable(Paint(v, fill), d) <==> Recordable(v, d)
  {
    var a, b := Step(Paint(v, fill), d).lists, Paint(Step(v, d), fill).lists;
    forall e: Edge ensures e in a <==> e in b
                   ensures e in a && e in b ==> a[e] == b[e] {
      PaintAt(v, d, fill, e);
    }
    assert a == b;
  }

  lemma PaintAt(v: View, d: Delta, fill: map<Edge, Role>, e: Edge)
    requires OffBackbone(fill)
    ensures var a, b := Step(Paint(v, fill), d).lists, Paint(Step(v, d), fill).lists;
            (e in a <==> e in b) && (e in a && e in b ==> a[e] == b[e])
  {
    if d.DDeregister? || d.DDelete? || d.DLeave? { PaintShrinks(v, d, fill, e); } else { PaintGrows(v, d, fill, e); }
  }

  lemma PaintShrinks(v: View, d: Delta, fill: map<Edge, Role>, e: Edge)
    requires d.DDeregister? || d.DDelete? || d.DLeave?
    ensures var a, b := Step(Paint(v, fill), d).lists, Paint(Step(v, d), fill).lists;
            (e in a <==> e in b) && (e in a && e in b ==> a[e] == b[e])
  {
    assert Paint(v, fill).points == v.points;
  }

  /** One edge gained, or none. */
  lemma PaintGrows(v: View, d: Delta, fill: map<Edge, Role>, e: Edge)
    requires OffBackbone(fill) && !d.DDeregister? && !d.DDelete? && !d.DLeave?
    ensures var a, b := Step(Paint(v, fill), d).lists, Paint(Step(v, d), fill).lists;
            (e in a <==> e in b) && (e in a && e in b ==> a[e] == b[e])
  {
    match d
    case DRegister(n, key) =>
      if n !in v.nodes && 0 in v.nets && (n, 0) !in v.lists { PaintGains(v, (n, 0), None, fill, e); }
    case DCreate(k, c) => if k !in v.nets { PaintGains(v, (c, k), Some(Owner), fill, e); }
    case DJoin(n, k) =>
      if k in v.nets && n in v.nodes && (n, k) !in v.lists { PaintGains(v, (n, k), Some(Member), fill, e); }
    case DRotate(n, key) =>
  }

  lemma PaintGains(v: View, g: Edge, role: Option<Role>, fill: map<Edge, Role>, e: Edge)
    requires role == None ==> g !in fill
    ensures var a, b := Paint(v, fill).lists[g := role], Paint(v.(lists := v.lists[g := role]), fill).lists;
            (e in a <==> e in b) && (e in a && e in b ==> a[e] == b[e])
  {
  }

  lemma {:induction false} PaintReplay(v: View, log: seq<Delta>, fill: map<Edge, Role>)
    requires OffBackbone(fill)
    ensures Replay(Paint(v, fill), log) == Paint(Replay(v, log), fill)
    ensures Valid(Paint(v, fill), log) <==> Valid(v, log)
    decreases |log|
  {
    if log != [] {
      PaintStep(v, log[0], fill);
      PaintReplay(Step(v, log[0]), log[1..], fill);
    }
  }

  lemma PaintTwice(v: View, fill: map<Edge, Role>)
    ensures Paint(Paint(v, fill), fill) == Paint(v, fill)
  {
  }

  lemma PaintWellFormed(v: View, fill: map<Edge, Role>)
    ensures WellFormed(Paint(v, fill)) <==> WellFormed(v)
  {
  }

  lemma PaintExactly(v: View, fill: map<Edge, Role>)
    ensures Paint(v, fill) == v <==> forall e :: e in v.lists && e in fill ==> v.lists[e] != None
  {
    if Paint(v, fill) == v {
      forall e | e in v.lists && e in fill ensures v.lists[e] != None {
        assert Paint(v, fill).lists[e] == v.lists[e];
      }
    } else {
      assert Paint(v, fill).lists != v.lists;
    }
  }
}
