/** Three promises the handlers do not keep, each with a witness and the exact condition. */
module RegistryLimits {
  import opened Registry
  import opened RegistryInvariants
  import opened RegistryRuns

  // --- owner-based reclaim ---------------------------------------------------------------

  const Quiescent := Endpoint("10.0.0.1:4000", [], "", false)

  /** Node 1, registered by `owner` under key "k1", founded network 1 and was reaped. */
  const Reaped := State(
    map[],
    map[0 := Network("backbone", "open", "", false, 0, [], map[]),
        1 := Network("ops", "open", "", false, 0, [1], map[1 := Owner])],
    map["k1" := 1], map["alice" := 1], map[], map[], 2, 2, 1_000_000)

  const Claim := Registration("k2", true, "alice", "", Quiescent, true, 0, [])

  const First := RegisterStep(Registration("k1", true, "alice", "", Quiescent, true, 0, []))
  const Second := NetworkStep(OpCreate(1, "ops", "", "", false, true))
  const Third := NodeStep(OpReap(1, 10))

  const Registered := State(
    map[1 := Node("k1", "alice", "", [0], 0, Quiescent, true)],
    map[0 := Network("backbone", "open", "", false, 0, [1], map[])],
    map["k1" := 1], map["alice" := 1], map[], map[], 2, 1, 1_000_000)

  const Founded := State(
    map[1 := Node("k1", "alice", "", [0, 1], 0, Quiescent, true)],
    map[0 := Network("backbone", "open", "", false, 0, [1], map[]),
        1 := Network("ops", "open", "", false, 0, [1], map[1 := Owner])],
    map["k1" := 1], map["alice" := 1], map[], map[], 2, 2, 1_000_000)

  lemma FirstStep()
    ensures Enabled(Initial, First) && Apply(Initial, First) == Registered
  {
    var a := Apply(Initial, First);
    var none: seq<NodeId> := [];
    assert none + [1] == [1];
    assert a.nodes == Registered.nodes;
    assert a.networks == Registered.networks;
    assert a.pubKeyIdx == Registered.pubKeyIdx && a.ownerIdx == Registered.ownerIdx;
  }

  lemma SecondStep()
    ensures Apply(Registered, Second) == Founded
  {
    var b := Apply(Registered, Second);
    assert [0] + [1] == [0, 1];
    assert b.nodes == Founded.nodes;
    assert b.networks == Founded.networks;
  }

  lemma ThirdStep()
    ensures Apply(Founded, Third) == Reaped
  {
    var c := Apply(Founded, Third);
    assert RemoveFirst([1], 1) == [];
    assert c.nodes == Reaped.nodes;
    assert c.networks == Reaped.networks;
  }

  lemma ReapedIsReachable()
    ensures Legal(Initial, [First, Second, Third]) && Run(Initial, [First, Second, Third]) == Reaped
  {
    FirstStep();
    SecondStep();
    ThirdStep();
    RunThree(Initial, First, Registered, Second, Founded, Third);
  }

  lemma RunOne(s: State, op: Op, rest: seq<Op>)
    requires 0 in s.networks && Enabled(s, op) && Legal(Apply(s, op), rest)
    ensures Legal(s, [op] + rest) && Run(s, [op] + rest) == Run(Apply(s, op), rest)
  {
    assert ([op] + rest)[1..] == rest;
  }

  lemma RunTwo(s: State, a: Op, t: State, b: Op)
    requires 0 in s.networks && Enabled(s, a) && Apply(s, a) == t && 0 in t.networks && Enabled(t, b)
    requires 0 in Apply(t, b).networks
    ensures Legal(s, [a, b]) && Run(s, [a, b]) == Apply(t, b)
  {
    RunOne(t, b, []);
    assert [b] + [] == [b];
    RunOne(s, a, [b]);
    assert [a] + [b] == [a, b];
  }

  lemma RunThree(s: State, a: Op, t: State, b: Op, u: State, c: Op)
    requires 0 in s.networks && Enabled(s, a) && Apply(s, a) == t
    requires 0 in t.networks && Enabled(t, b) && Apply(t, b) == u
    requires 0 in u.networks && Enabled(u, c) && 0 in Apply(u, c).networks
    ensures Legal(s, [a, b, c]) && Run(s, [a, b, c]) == Apply(u, c)
  {
    RunTwo(t, b, u, c);
    RunOne(s, a, [b, c]);
    assert [a] + [b, c] == [a, b, c];
  }

  /** A reachable state whose owner-based reclaim leaves a live node out of step with
      a network that lists it. */
  lemma OwnerReclaimCutsOff()
    ensures Inv(Reaped) && Tight(Reaped)
    ensures RegisterPath(Reaped, Claim) == OwnerReclaimed && CutsOff(Reaped, RegisterStep(Claim))
    ensures !Tight(Register(Reaped, Claim))
  {
    assert Lists(Reaped, 1, 1);
    ReapedInv();
    OwnerReclaimTightExactly(Reaped, Claim);
  }

  lemma ReapedInv()
    ensures Inv(Reaped) && Tight(Reaped)
  {
    ReapedIsReachable();
    InitialInv();
    RunKeepsInv(Initial, [First, Second, Third]);
    ReapedTight();
  }

  lemma ReapedTight()
    ensures Tight(Reaped)
  {
  }

  // --- roles on the backbone --------------------------------------------------------------

  /** Only members hold roles, the backbone included. */
  ghost predicate RanksListed(s: State) {
    forall k, n :: Ranks(s, k, n) ==> Lists(s, k, n)
  }

  /** Reaping a node that was given a role on the backbone: the reaper removes the
      membership entry and leaves the role behind. */
  ghost predicate LeavesRank(s: State, op: Op) {
    && op.NodeStep? && op.nodeOp.OpReap? && op.nodeOp.id in s.nodes
    && s.nodes[op.nodeOp.id].lastSeen < op.nodeOp.threshold
    && Ranks(s, 0, op.nodeOp.id)
  }

  /** The backbone lists nobody twice. */
  ghost predicate BackboneOnce(s: State) {
    0 in s.networks && NoDup(s.networks[0].members)
  }

  /** Every role on the backbone belongs to a listed member after the step. */
  ghost predicate BackboneDisciplined(s: State, t: State) {
    && 0 in s.networks && 0 in t.networks
    && (forall n :: Ranks(t, 0, n) ==> Lists(t, 0, n))
  }

  lemma SameBackbone(s: State, t: State)
    requires RanksListed(s) && 0 in s.networks && 0 in t.networks
    requires t.networks[0].roles == s.networks[0].roles
    requires forall n :: Lists(s, 0, n) ==> Lists(t, 0, n)
    ensures BackboneDisciplined(s, t)
  {
    forall n | Ranks(t, 0, n) ensures Lists(t, 0, n) {
      assert Ranks(s, 0, n);
      assert Lists(s, 0, n);
    }
  }

  lemma NodeStepBackbone(s: State, op: NodeOp)
    requires Inv(s) && BackboneOnce(s) && RanksListed(s)
    ensures BackboneDisciplined(s, ApplyNode(s, op)) <==> !LeavesRank(s, NodeStep(op))
  {
    var t := ApplyNode(s, op);
    if op.OpDeregister? && t != s {
      DropFromNetworksAt(s, op.id, s.nodes[op.id].networks, 0);
      forall n | Ranks(t, 0, n) ensures Lists(t, 0, n) {
        assert Ranks(s, 0, n);
        assert Lists(s, 0, n);
      }
    } else if op.OpReap? && t != s {
      RemoveFirstNoDup(s.networks[0].members, op.id);
      forall n | Ranks(t, 0, n) && n != op.id ensures Lists(t, 0, n) {
        assert Ranks(s, 0, n);
        assert Lists(s, 0, n);
      }
      assert Ranks(t, 0, op.id) == Ranks(s, 0, op.id) && !Lists(t, 0, op.id);
    } else {
      SameBackbone(s, t);
    }
  }

  lemma NetworkStepElsewhere(s: State, op: NetworkOp)
    requires 0 in s.networks && !s.networks[0].enterprise
    ensures 0 in ApplyNetwork(s, op).networks && ApplyNetwork(s, op).networks[0] == s.networks[0]
  {
  }

  lemma NetworkStepBackbone(s: State, op: NetworkOp)
    requires Inv(s) && RanksListed(s)
    ensures BackboneDisciplined(s, ApplyNetwork(s, op))
  {
    NetworkStepElsewhere(s, op);
    SameBackbone(s, ApplyNetwork(s, op));
  }

  lemma RoleStepBackbone(s: State, op: RoleOp)
    requires Inv(s) && RanksListed(s)
    ensures BackboneDisciplined(s, ApplyRole(s, op))
  {
    var t := ApplyRole(s, op);
    if t != s && op.net == 0 {
      forall n | Ranks(t, 0, n) ensures Lists(t, 0, n) {
        if n != op.target {
          assert Ranks(s, 0, n);
          assert Lists(s, 0, n);
        }
      }
    } else {
      SameBackbone(s, t);
    }
  }

  /** Role keys stay members through every step but one family, and that family always
      breaks it: reaping a node that holds a role on the backbone. */
  lemma RanksListedExactly(s: State, op: Op)
    requires Inv(s) && BackboneOnce(s) && Enabled(s, op) && RanksListed(s)
    ensures RanksListed(Apply(s, op)) <==> !LeavesRank(s, op)
  {
    var t := Apply(s, op);
    StepKeepsInv(s, op);
    assert RanksListed(t) <==> BackboneDisciplined(s, t);
    match op
    case RegisterStep(r) =>
      RegisterFrame(s, r);
      SameBackbone(s, t);
    case IndexStep(id, prev, key) => SameBackbone(s, t);
    case NodeStep(d) => NodeStepBackbone(s, d);
    case NetworkStep(d) => NetworkStepBackbone(s, d);
    case RoleStep(d) => RoleStepBackbone(s, d);
  }

  // That the backbone lists nobody twice holds in every run, owner-based reclaims included.

  lemma CutKeepsOnce(s: State, t: State, id: NodeId)
    requires BackboneOnce(s) && 0 in t.networks
    requires t.networks[0].members in {s.networks[0].members, RemoveFirst(s.networks[0].members, id)}
    ensures BackboneOnce(t)
  {
    RemoveFirstNoDup(s.networks[0].members, id);
  }

  lemma NodeStepOnce(s: State, op: NodeOp)
    requires Inv(s) && BackboneOnce(s)
    ensures BackboneOnce(ApplyNode(s, op))
  {
    if op.OpDeregister? && op.id in s.nodes { DropFromNetworksAt(s, op.id, s.nodes[op.id].networks, 0); }
    CutKeepsOnce(s, ApplyNode(s, op), op.id);
  }

  lemma RoleStepOnce(s: State, op: RoleOp)
    requires Inv(s) && BackboneOnce(s)
    ensures BackboneOnce(ApplyRole(s, op))
  {
    CutKeepsOnce(s, ApplyRole(s, op), if op.OpTransfer? then 0 else op.target);
  }

  lemma ReviveOnce(s: State, r: Registration, id: NodeId, networks: seq<NetId>)
    requires BackboneOnce(s)
    ensures BackboneOnce(Revive(s, r, id, networks))
  {
    var members := s.networks[0].members;
    if id !in members { AppendNoDup(members, id); }
  }

  lemma RegisterOnce(s: State, r: Registration)
    requires BackboneOnce(s)
    ensures BackboneOnce(Register(s, r))
  {
    match RegisterPath(s, r)
    case Rejected =>
    case Refreshed =>
    case KeyReclaimed =>
      var id := s.pubKeyIdx[r.key];
      ReviveOnce(if r.owner != "" then s.(ownerIdx := s.ownerIdx[r.owner := id]) else s, r, id, [0] + r.scan);
    case OwnerReclaimed =>
      var id := s.ownerIdx[r.owner];
      ReviveOnce(s.(pubKeyIdx := s.pubKeyIdx[r.key := id]), r, id, [0]);
    case Allocated => ReviveOnce(Reserve(s, r), r, s.nextNode, [0]);
  }

  lemma StepOnce(s: State, op: Op)
    requires Inv(s) && Enabled(s, op) && BackboneOnce(s)
    ensures BackboneOnce(Apply(s, op))
  {
    match op
    case RegisterStep(r) => RegisterOnce(s, r);
    case IndexStep(id, prev, key) =>
    case NodeStep(d) => NodeStepOnce(s, d);
    case NetworkStep(d) => NetworkStepElsewhere(s, d);
    case RoleStep(d) => RoleStepOnce(s, d);
  }

  /** No step of the run reaps a node that holds a backbone role. */
  ghost predicate NoneLeavesRank(s: State, ops: seq<Op>)
    requires Legal(s, ops)
    decreases |ops|
  {
    ops == [] || (!LeavesRank(s, ops[0]) && NoneLeavesRank(Apply(s, ops[0]), ops[1..]))
  }

  /** Over whole runs: only members hold roles, backbone included, as long as no such reap happens. */
  lemma {:induction false} RunRanksListed(s: State, ops: seq<Op>)
    requires Inv(s) && BackboneOnce(s) && RanksListed(s) && Legal(s, ops) && NoneLeavesRank(s, ops)
    ensures RanksListed(Run(s, ops)) && BackboneOnce(Run(s, ops))
    decreases |ops|
  {
    if ops != [] {
      StepKeepsInv(s, ops[0]);
      StepOnce(s, ops[0]);
      RanksListedExactly(s, ops[0]);
      RunRanksListed(Apply(s, ops[0]), ops[1..]);
    }
  }

  const Appoint := RoleStep(OpAdminSetRole(0, 1, Admin))

  const Appointed := Registered.(networks := map[0 := Network("backbone", "open", "", false, 0, [1], map[1 := Admin])])

  lemma AppointStep()
    ensures Apply(Registered, Appoint) == Appointed
  {
    assert Apply(Registered, Appoint).networks == Appointed.networks;
  }

  /** A node registers, is given a backbone role and is reaped: the role is left behind. */
  lemma RankOutlivesMember()
    ensures Legal(Initial, [First, Appoint]) && Run(Initial, [First, Appoint]) == Appointed
    ensures LeavesRank(Appointed, Third) && !RanksListed(Apply(Appointed, Third))
  {
    FirstStep();
    AppointStep();
    RunTwo(Initial, First, Registered, Appoint);
    var t := Apply(Appointed, Third);
    assert Ranks(Appointed, 0, 1);
    assert RemoveFirst([1], 1) == [];
    assert Ranks(t, 0, 1) && !Lists(t, 0, 1);
  }

  // --- the hostname a scan saw -------------------------------------------------------------

  /** Whether the entry the deletion removes is the right one. */
  ghost predicate SawRight(s: State, id: NodeId, saw: string)
    requires id in s.nodes
  {
    if s.nodes[id].hostname != "" then saw == s.nodes[id].hostname else saw !in s.hostnameIdx
  }

  lemma ReapSeenAt(s: State, id: NodeId, saw: string, threshold: int)
    requires HostsInverse(s) && id in s.nodes && s.nodes[id].lastSeen < threshold
    ensures ReapSeen(s, id, saw, threshold).nodes == s.nodes - {id}
    ensures ReapSeen(s, id, saw, threshold).hostnameIdx == s.hostnameIdx - {saw}
  {
  }

  lemma CutRight(s: State, id: NodeId, saw: string, t: State)
    requires HostsInverse(s) && id in s.nodes && SawRight(s, id, saw)
    requires t.nodes == s.nodes - {id} && t.hostnameIdx == s.hostnameIdx - {saw}
    ensures HostsInverse(t)
  {
  }

  lemma CutWrong(s: State, id: NodeId, saw: string, t: State)
    requires HostsInverse(s) && id in s.nodes && !SawRight(s, id, saw)
    requires t.nodes == s.nodes - {id} && t.hostnameIdx == s.hostnameIdx - {saw}
    ensures !HostsInverse(t)
  {
    var h := s.nodes[id].hostname;
    if h != "" {
      assert h in t.hostnameIdx && t.hostnameIdx[h] !in t.nodes;
    } else {
      assert s.hostnameIdx[saw] in t.nodes && t.nodes[s.hostnameIdx[saw]].hostname == saw;
      assert saw !in t.hostnameIdx;
    }
  }

  /** The deletion phase unindexes the hostname its earlier scan saw. The index stays
      the inverse of the live hostnames exactly when that is still the right entry:
      the node's current hostname, or, if it has none now, a name nobody holds. */
  lemma ReapSeenExactly(s: State, id: NodeId, saw: string, threshold: int)
    requires HostsInverse(s) && id in s.nodes && s.nodes[id].lastSeen < threshold
    ensures HostsInverse(ReapSeen(s, id, saw, threshold)) <==>
            if s.nodes[id].hostname != "" then saw == s.nodes[id].hostname else saw !in s.hostnameIdx
  {
    var t := ReapSeen(s, id, saw, threshold);
    ReapSeenAt(s, id, saw, threshold);
    if SawRight(s, id, saw) {
      CutRight(s, id, saw, t);
    } else {
      CutWrong(s, id, saw, t);
    }
  }

  const Named := RegisterStep(Registration("k1", true, "alice", "a", Quiescent, true, 0, []))
  const Rename := NodeStep(OpSetHostname(1, "b", true))

  /** Node 1, registered as "a" at time 0 and renamed "b" since. */
  const Renamed := State(
    map[1 := Node("k1", "alice", "b", [0], 0, Quiescent, true)],
    map[0 := Network("backbone", "open", "", false, 0, [1], map[])],
    map["k1" := 1], map["alice" := 1], map["b" := 1], map[], 2, 1, 1_000_000)

  lemma NamedStep()
    ensures Enabled(Initial, Named)
    ensures Apply(Initial, Named) ==
            Renamed.(nodes := map[1 := Renamed.nodes[1].(hostname := "a")], hostnameIdx := map["a" := 1])
  {
    var a := Apply(Initial, Named);
    var none: seq<NodeId> := [];
    assert none + [1] == [1];
    assert a.nodes == map[1 := Renamed.nodes[1].(hostname := "a")];
    assert a.networks == Renamed.networks;
    assert a.pubKeyIdx == Renamed.pubKeyIdx && a.ownerIdx == Renamed.ownerIdx && a.hostnameIdx == map["a" := 1];
  }

  lemma RenamedIsReachable()
    ensures Legal(Initial, [Named, Rename]) && Run(Initial, [Named, Rename]) == Renamed
  {
    NamedStep();
    var a := Apply(Initial, Named);
    var b := Apply(a, Rename);
    assert b.nodes == Renamed.nodes && b.hostnameIdx == Renamed.hostnameIdx;
    RunTwo(Initial, Named, a, Rename);
  }

  /** A rename between the scan and the deletion leaves an index entry for a dead node. */
  lemma RenameOutrunsReaper()
    ensures Inv(Renamed) && Renamed.nodes[1].lastSeen < 10
    ensures !HostsInverse(ReapSeen(Renamed, 1, "a", 10))
  {
    RenamedIsReachable();
    InitialInv();
    RunKeepsInv(Initial, [Named, Rename]);
    ReapSeenExactly(Renamed, 1, "a", 10);
  }
}
