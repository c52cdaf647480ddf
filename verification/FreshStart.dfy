/** Starting without a snapshot: the log is replayed before the backbone exists, and the
    backbone that is then created lists nobody. */
module FreshStart {
  import opened Registry
  import opened RegistryInvariants
  import opened Overlap
  import opened DeltaReplay
  import opened Loading
  import opened WalFile
  import opened Recovery
  import RegistryRuns
  import RegistryLimits

  function Sans(s: State): State {
    s.(networks := s.networks - {0})
  }

  /** What startup makes of a log when no snapshot can be loaded. */
  ghost function RestartFresh(c: Codec, wal: bytes): State {
    var s := ApplyLog(Sans(Initial), Decode(c, Read(wal).entries));
    s.(networks := s.networks[0 := Initial.networks[0]])
  }

  // --- replay does not notice that the backbone is missing -----------------------------------

  lemma WithNetworkSans(s: State, k: NetId, n: Network)
    requires k != 0
    ensures WithNetwork(Sans(s), k, n) == Sans(WithNetwork(s, k, n))
  {
    assert (s.networks - {0})[k := n] == s.networks[k := n] - {0};
  }

  lemma BackboneSans(s: State, n: Network)
    ensures Sans(WithNetwork(s, 0, n)) == Sans(s)
  {
    assert s.networks[0 := n] - {0} == s.networks - {0};
  }

  lemma DropMemberSans(s: State, k: NetId, id: NodeId)
    requires k in s.networks
    ensures Sans(DropMember(s, k, id)) == if k == 0 then Sans(s) else DropMember(Sans(s), k, id)
  {
    var net := s.networks[k];
    var rest := net.(members := RemoveFirst(net.members, id), roles := net.roles - {id});
    if k == 0 { BackboneSans(s, rest); } else { WithNetworkSans(s, k, rest); }
  }

  lemma {:induction false} DropFromNetworksSans(s: State, id: NodeId, networks: seq<NetId>)
    ensures DropFromNetworks(Sans(s), id, networks) == Sans(DropFromNetworks(s, id, networks))
    decreases |networks|
  {
    if networks != [] {
      var k := networks[0];
      if k in s.networks {
        DropMemberSans(s, k, id);
        DropFromNetworksSans(DropMember(s, k, id), id, networks[1..]);
      } else {
        DropFromNetworksSans(s, id, networks[1..]);
      }
    }
  }

  lemma {:induction false} DropNodeNetworksSans(s: State, members: seq<NodeId>, k: NetId)
    ensures DropNodeNetworks(Sans(s), members, k) == Sans(DropNodeNetworks(s, members, k))
    decreases |members|
  {
    if members != [] {
      DropNodeNetworksSans(DropNodeNetwork(s, members[0], k), members[1..], k);
    }
  }

  lemma AddToBackboneSans(s: State, id: NodeId)
    requires 0 in s.networks
    ensures Sans(AddToBackbone(s, id)) == Sans(s)
  {
    var net := s.networks[0];
    BackboneSans(s, net.(members := net.members + [id]));
  }

  lemma RegisterSans(s: State, e: Entry)
    requires e.RegisterEntry?
    ensures ApplyRegister(Sans(s), e) == Sans(ApplyRegister(s, e))
  {
    var s2 := Entered(s, e);
    assert Entered(Sans(s), e) == Sans(s2);
    if 0 in s2.networks { AddToBackboneSans(s2, e.id); }
  }

  lemma DeregisterSans(s: State, id: NodeId)
    ensures ApplyDeregister(Sans(s), id) == Sans(ApplyDeregister(s, id))
  {
    if id in s.nodes {
      var n := s.nodes[id];
      var s1 := s.(pubKeyIdx := s.pubKeyIdx - {n.key},
                   ownerIdx := if n.owner != "" then s.ownerIdx - {n.owner} else s.ownerIdx,
                   hostnameIdx := if n.hostname != "" then s.hostnameIdx - {n.hostname} else s.hostnameIdx,
                   nodes := s.nodes - {id});
      DropFromNetworksSans(s1, id, n.networks);
    }
  }

  lemma PointOnceSans(s: State, id: NodeId, k: NetId)
    ensures PointOnce(Sans(s), id, k) == Sans(PointOnce(s, id, k))
  {
  }

  lemma CreateSans(s: State, e: Entry)
    requires e.CreateEntry? && e.net != 0
    ensures ApplyCreate(Sans(s), e) == Sans(ApplyCreate(s, e))
  {
    if e.net !in s.networks {
      PointOnceSans(s, e.creator, e.net);
      StoredSans(if e.creator != 0 then PointOnce(s, e.creator, e.net) else s, e.net, CreatedNetwork(e));
    }
  }

  /** Storing a network and moving the counter past it. */
  lemma StoredSans(s: State, k: NetId, net: Network)
    requires k != 0
    ensures var a, b := WithNetwork(Sans(s), k, net), WithNetwork(s, k, net);
            (if a.nextNet <= k then a.(nextNet := (k + 1) % NET_LIMIT) else a)
            == Sans(if b.nextNet <= k then b.(nextNet := (k + 1) % NET_LIMIT) else b)
  {
    WithNetworkSans(s, k, net);
  }

  lemma DeleteSans(s: State, k: NetId)
    requires k != 0
    ensures ApplyDelete(Sans(s), k) == Sans(ApplyDelete(s, k))
  {
    if k in s.networks {
      DropNodeNetworksSans(s, s.networks[k].members, k);
      assert (s.networks - {0}) - {k} == (s.networks - {k}) - {0};
    }
  }

  lemma JoinSans(s: State, id: NodeId, k: NetId)
    requires k != 0
    ensures ApplyJoin(Sans(s), id, k) == Sans(ApplyJoin(s, id, k))
  {
    if k in s.networks && id in s.nodes {
      var net := s.networks[k];
      var joined := net.(members := net.members + [id], roles := net.roles[id := Member]);
      WithNetworkSans(s, k, joined);
      PointOnceSans(if id in net.members then s else WithNetwork(s, k, joined), id, k);
    }
  }

  lemma LeaveSans(s: State, id: NodeId, k: NetId)
    requires k != 0
    ensures ApplyLeave(Sans(s), id, k) == Sans(ApplyLeave(s, id, k))
  {
    if k in s.networks { DropMemberSans(s, k, id); }
  }

  lemma EntrySans(s: State, e: Entry)
    requires WellMade(e)
    ensures ApplyEntry(Sans(s), e) == Sans(ApplyEntry(s, e))
  {
    match e
    case RegisterEntry(_, _, _, _, _, _) => RegisterSans(s, e);
    case DeregisterEntry(id) => DeregisterSans(s, id);
    case CreateEntry(_, _, _, _, _, _) => CreateSans(s, e);
    case DeleteEntry(k) => DeleteSans(s, k);
    case JoinEntry(id, k) => JoinSans(s, id, k);
    case LeaveEntry(id, k) => LeaveSans(s, id, k);
    case RotateEntry(id, key) =>
  }

  lemma {:induction false} LogSans(s: State, log: seq<Entry>)
    requires forall i :: 0 <= i < |log| ==> WellMade(log[i])
    ensures ApplyLog(Sans(s), log) == Sans(ApplyLog(s, log))
    decreases |log|
  {
    if log != [] {
      EntrySans(s, log[0]);
      LogSans(ApplyEntry(s, log[0]), log[1..]);
    }
  }

  // --- what comes back -------------------------------------------------------------------------

  /** The same, with a backbone that lists nobody. */
  ghost function Unlisted(v: View): View {
    v.(lists := map e | e in v.lists && e.1 != 0 :: v.lists[e])
  }

  lemma EmptiedProjects(s: State)
    requires 0 in s.networks
    ensures Project(s.(networks := s.networks[0 := Initial.networks[0]])) == Unlisted(Project(s))
  {
    var t, v := s.(networks := s.networks[0 := Initial.networks[0]]), Project(s);
    ProjectMatches(s);
    forall n: NodeId ensures NodeMatches(t, Unlisted(v), n) { assert NodeMatches(s, v, n); }
    forall n: NodeId, k: NetId ensures EdgeMatches(t, Unlisted(v), n, k) { assert EdgeMatches(s, v, n, k); }
    MatchesIsProject(t, Unlisted(v));
  }

  /** Before the first flush a crash recovers everything but the members of the backbone:
      exactly the live state if and only if the backbone lists nobody. */
  lemma FreshRestartExactly(c: Codec, m: Machine)
    requires Faithful(c) && MachineInv(c, m) && m.base == Project(Initial)
    ensures Project(RestartFresh(c, m.disk.wal)) == Unlisted(Project(m.live))
    ensures Project(RestartFresh(c, m.disk.wal)) == Project(m.live) <==> forall n :: !Lists(m.live, 0, n)
  {
    LogReads(c, m.disk.wal, m.log);
    FreshReplay(m.log);
    UnlistedSame(m.live);
  }

  lemma BackToZero(m: map<NetId, Network>, n: Network)
    ensures (m - {0})[0 := n] == m[0 := n]
  {
  }

  lemma FreshReplay(log: seq<Entry>)
    requires forall i :: 0 <= i < |log| ==> WellMade(log[i])
    ensures var s := ApplyLog(Sans(Initial), log);
            Project(s.(networks := s.networks[0 := Initial.networks[0]])) ==
            Unlisted(Replay(Project(Initial), ProjectLog(log)))
  {
    var s := ApplyLog(Initial, log);
    LogSans(Initial, log);
    InitialClean();
    LogCommutes(Initial, log);
    BackToZero(s.networks, Initial.networks[0]);
    EmptiedProjects(s);
  }

  lemma InitialClean()
    ensures Clean(Initial) && 0 in Initial.networks
  {
    RegistryRuns.InitialInv();
    InvIsClean(Initial);
  }

  lemma UnlistedSame(s: State)
    ensures Unlisted(Project(s)) == Project(s) <==> forall n :: !Lists(s, 0, n)
  {
    var v := Project(s);
    ProjectMatches(s);
    if Unlisted(v) == v {
      forall n ensures !Lists(s, 0, n) { assert EdgeMatches(s, v, n, 0); }
    } else {
      assert Unlisted(v).lists != v.lists;
      var e :| e in v.lists && e.1 == 0;
      assert EdgeMatches(s, v, e.0, 0);
    }
  }

  /** So every live node that was on the backbone points at a network that does not list it. */
  lemma FreshRestartCutsOff(c: Codec, m: Machine, n: NodeId)
    requires Faithful(c) && MachineInv(c, m) && m.base == Project(Initial) && Points(m.live, n, 0)
    ensures Points(RestartFresh(c, m.disk.wal), n, 0) && !Lists(RestartFresh(c, m.disk.wal), 0, n)
    ensures !Inv(RestartFresh(c, m.disk.wal))
  {
    FreshRestartExactly(c, m);
    var t := RestartFresh(c, m.disk.wal);
    ProjectMatches(m.live);
    ProjectMatches(t);
    assert EdgeMatches(m.live, Project(m.live), n, 0);
    assert EdgeMatches(t, Project(t), n, 0);
  }

  lemma FreshLoads()
    ensures Loaded(Initial, []) == Initial && Started(Initial, []).live == Initial && Sound(Initial)
  {
    RegistryRuns.InitialInv();
    ValidIsSound(Initial);
    var t := Loaded(Initial, []);
    assert t.nodes == Initial.nodes && t.networks == Initial.networks && t.invites == Initial.invites;
    assert t.pubKeyIdx == Initial.pubKeyIdx;
  }

  /** One registration and a crash are enough. */
  lemma FirstNodeCutOff(c: Codec)
    requires Faithful(c) && 0 in Started(Initial, []).live.networks
    requires CanHappen(c, Started(Initial, []), Do(RegistryLimits.First))
    ensures var m := Perform(c, Started(Initial, []), RegistryLimits.First);
            Points(m.live, 1, 0) && !Lists(RestartFresh(c, m.disk.wal), 0, 1)
  {
    RegistryLimits.FirstStep();
    FreshLoads();
    var m0 := Started(Initial, []);
    StartedInv(c, Initial, []);
    var m := Perform(c, m0, RegistryLimits.First);
    DoKeepsMachine(c, m0, RegistryLimits.First);
    assert m.base == Project(Initial);
    FreshRestartCutsOff(c, m, 1);
  }
}
