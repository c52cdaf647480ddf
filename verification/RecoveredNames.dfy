/** The hostname index after a restart. Renames are not logged, so replay can give a name to
    a second node; the index is the inverse of the hostnames again exactly when every node
    that ever shared a name during the replay has left. */
module RecoveredNames {
  import opened Options
  import opened Registry
  import opened RegistryInvariants
  import opened DeltaReplay
  import opened Loading
  import opened Recovery
  import RegistryLimits

  function Holders(s: State, h: string): set<NodeId> {
    set n | n in s.nodes && s.nodes[n].hostname == h
  }

  /** The nodes that have shared a name, after one more entry. */
  function ClashedBy(s: State, e: Entry, t: set<NodeId>): set<NodeId> {
    match e
    case RegisterEntry(id, _, _, h, _, _) =>
      if id !in s.nodes && h != "" && Holders(s, h) != {} then t + Holders(s, h) + {id} else t
    case DeregisterEntry(id) => t - {id}
    case _ => t
  }

  /** The live nodes that shared a name with another at some point of the replay. */
  function Clashed(s: State, log: seq<Entry>, t: set<NodeId>): set<NodeId>
    decreases |log|
  {
    if log == [] || Malformed(log[0]) then t
    else Clashed(ApplyEntry(s, log[0]), log[1..], ClashedBy(s, log[0], t))
  }

  ghost predicate Shares(s: State, n: NodeId) {
    n in s.nodes && exists m :: m in s.nodes && m != n && s.nodes[m].hostname == s.nodes[n].hostname
  }

  /** The index is right but for the nodes in `t`. */
  ghost predicate RightBut(s: State, t: set<NodeId>) {
    && (forall h :: h in s.hostnameIdx ==>
          h != "" && s.hostnameIdx[h] in s.nodes && s.nodes[s.hostnameIdx[h]].hostname == h)
    && (forall n :: n in s.nodes && s.nodes[n].hostname != "" && n !in t ==>
          s.nodes[n].hostname in s.hostnameIdx && s.hostnameIdx[s.nodes[n].hostname] == n)
  }

  /** And wrong for each of them, which are all that share a name. */
  ghost predicate WrongFor(s: State, t: set<NodeId>) {
    && (forall n :: n in t ==> n in s.nodes && s.nodes[n].hostname != "")
    && (forall n :: n in t ==> Shares(s, n) || s.nodes[n].hostname !in s.hostnameIdx)
    && (forall n :: n in s.nodes && s.nodes[n].hostname != "" && Shares(s, n) ==> n in t)
  }

  ghost predicate NamesBut(s: State, t: set<NodeId>) {
    RightBut(s, t) && WrongFor(s, t)
  }

  lemma NamesButNone(s: State)
    ensures HostsInverse(s) <==> NamesBut(s, {})
  {
  }

  lemma ClashedIsWrong(s: State, t: set<NodeId>)
    requires NamesBut(s, t)
    ensures HostsInverse(s) <==> t == {}
  {
    if t != {} {
      var n :| n in t;
      assert n in s.nodes && s.nodes[n].hostname != "";
      assert Shares(s, n) || s.nodes[n].hostname !in s.hostnameIdx;
    }
  }

  /** Same nodes, names and index. */
  ghost predicate SameNames(a: State, b: State) {
    && a.hostnameIdx == b.hostnameIdx && a.nodes.Keys == b.nodes.Keys
    && forall n :: n in a.nodes ==> a.nodes[n].hostname == b.nodes[n].hostname
  }

  lemma SameNamesBut(a: State, b: State, t: set<NodeId>)
    requires SameNames(a, b) && NamesBut(a, t)
    ensures NamesBut(b, t)
  {
    assert forall n :: Shares(b, n) <==> Shares(a, n);
  }

  lemma {:induction false} DropsKeepNames(s: State, members: seq<NodeId>, k: NetId)
    ensures SameNames(s, DropNodeNetworks(s, members, k))
    decreases |members|
  {
    if members != [] { DropsKeepNames(DropNodeNetwork(s, members[0], k), members[1..], k); }
  }

  lemma CreateNames(s: State, e: Entry)
    requires e.CreateEntry?
    ensures SameNames(s, ApplyCreate(s, e))
  {
    PointNames(s, e.creator, e.net);
  }

  lemma PointNames(s: State, id: NodeId, k: NetId)
    ensures SameNames(s, PointOnce(s, id, k))
  {
  }

  lemma JoinNames(s: State, id: NodeId, k: NetId)
    ensures SameNames(s, ApplyJoin(s, id, k))
  {
    PointNames(s, id, k);
  }

  lemma LeaveNames(s: State, id: NodeId, k: NetId)
    ensures SameNames(s, ApplyLeave(s, id, k))
  {
  }

  lemma OtherEntryNames(s: State, e: Entry)
    requires !e.RegisterEntry? && !e.DeregisterEntry?
    ensures SameNames(s, ApplyEntry(s, e))
  {
    match e
    case CreateEntry(_, _, _, _, _, _) => CreateNames(s, e);
    case DeleteEntry(k) => if k in s.networks { DropsKeepNames(s, s.networks[k].members, k); }
    case JoinEntry(id, k) => JoinNames(s, id, k);
    case LeaveEntry(id, k) => LeaveNames(s, id, k);
    case RotateEntry(id, key) =>
    case UnknownEntry =>
    case BrokenEntry =>
  }

  lemma RegisterNames(s: State, e: Entry, t: set<NodeId>)
    requires e.RegisterEntry? && NamesBut(s, t)
    ensures NamesBut(ApplyEntry(s, e), ClashedBy(s, e, t))
  {
    if e.id !in s.nodes {
      var u := ApplyRegister(s, e);
      assert u.hostnameIdx == if e.hostname != "" then s.hostnameIdx[e.hostname := e.id] else s.hostnameIdx;
      assert u.nodes.Keys == s.nodes.Keys + {e.id};
      assert Joined(s, u, e.id, e.hostname);
      if e.hostname != "" && Holders(s, e.hostname) != {} {
        NamedClash(s, u, e.id, e.hostname, t);
      } else {
        NamedApart(s, u, e.id, e.hostname, t);
      }
    }
  }

  /** A new node `id` named `h`. */
  ghost predicate Joined(s: State, u: State, id: NodeId, h: string) {
    && id !in s.nodes && u.nodes.Keys == s.nodes.Keys + {id} && u.nodes[id].hostname == h
    && (forall n :: n in s.nodes ==> u.nodes[n].hostname == s.nodes[n].hostname)
    && u.hostnameIdx == if h != "" then s.hostnameIdx[h := id] else s.hostnameIdx
  }

  lemma JoinedShares(s: State, u: State, id: NodeId, h: string, n: NodeId)
    requires Joined(s, u, id, h)
    ensures n in s.nodes ==> (Shares(u, n) <==> Shares(s, n) || s.nodes[n].hostname == h)
    ensures Shares(u, id) <==> Holders(s, h) != {}
  {
    if Shares(s, n) {
      var m :| m in s.nodes && m != n && s.nodes[m].hostname == s.nodes[n].hostname;
      assert m in u.nodes;
    }
    if m :| m in Holders(s, h) { assert m in u.nodes && u.nodes[m].hostname == h; }
  }

  lemma NamedApart(s: State, u: State, id: NodeId, h: string, t: set<NodeId>)
    requires NamesBut(s, t) && Joined(s, u, id, h) && (h == "" || Holders(s, h) == {})
    ensures NamesBut(u, t)
  {
    forall n | n in s.nodes && s.nodes[n].hostname != "" ensures s.nodes[n].hostname != h {
      assert n in Holders(s, s.nodes[n].hostname);
    }
    ApartRight(s, u, id, h, t);
    ApartWrong(s, u, id, h, t);
  }

  lemma ApartRight(s: State, u: State, id: NodeId, h: string, t: set<NodeId>)
    requires RightBut(s, t) && Joined(s, u, id, h)
    requires forall n :: n in s.nodes && s.nodes[n].hostname != "" ==> s.nodes[n].hostname != h
    ensures RightBut(u, t)
  {
  }

  lemma ApartWrong(s: State, u: State, id: NodeId, h: string, t: set<NodeId>)
    requires WrongFor(s, t) && Joined(s, u, id, h)
    requires forall n :: n in s.nodes && s.nodes[n].hostname != "" ==> s.nodes[n].hostname != h
    ensures WrongFor(u, t)
  {
    forall n | n in s.nodes && s.nodes[n].hostname != "" ensures Shares(u, n) <==> Shares(s, n) {
      JoinedShares(s, u, id, h, n);
    }
    JoinedShares(s, u, id, h, id);
  }

  lemma NamedClash(s: State, u: State, id: NodeId, h: string, t: set<NodeId>)
    requires NamesBut(s, t) && Joined(s, u, id, h) && h != "" && Holders(s, h) != {}
    ensures NamesBut(u, t + Holders(s, h) + {id})
  {
    ClashRight(s, u, id, h, t, Holders(s, h));
    ClashWrong(s, u, id, h, t, Holders(s, h));
  }

  lemma ClashRight(s: State, u: State, id: NodeId, h: string, t: set<NodeId>, holders: set<NodeId>)
    requires RightBut(s, t) && Joined(s, u, id, h) && h != "" && holders == Holders(s, h)
    ensures RightBut(u, t + holders + {id})
  {
    forall n | n in u.nodes && u.nodes[n].hostname == h && n != id ensures n in holders { assert n in s.nodes; }
  }

  lemma ClashWrong(s: State, u: State, id: NodeId, h: string, t: set<NodeId>, holders: set<NodeId>)
    requires WrongFor(s, t) && Joined(s, u, id, h) && h != "" && holders == Holders(s, h) != {}
    ensures WrongFor(u, t + holders + {id})
  {
    var t' := t + holders + {id};
    forall n | n in t' ensures n in u.nodes && u.nodes[n].hostname != ""
                               && (Shares(u, n) || u.nodes[n].hostname !in u.hostnameIdx) {
      ClashInvolved(s, u, id, h, t, holders, n);
    }
    forall n | n in u.nodes && u.nodes[n].hostname != "" && Shares(u, n) ensures n in t' {
      ClashComplete(s, u, id, h, t, holders, n);
    }
  }

  /** Everyone involved in a clash is named and shares the name or is not indexed. */
  lemma ClashInvolved(s: State, u: State, id: NodeId, h: string, t: set<NodeId>, holders: set<NodeId>, n: NodeId)
    requires WrongFor(s, t) && Joined(s, u, id, h) && h != "" && holders == Holders(s, h) != {}
    requires n in t + holders + {id}
    ensures n in u.nodes && u.nodes[n].hostname != "" && (Shares(u, n) || u.nodes[n].hostname !in u.hostnameIdx)
  {
    JoinedShares(s, u, id, h, n);
  }

  /** And everyone who shares a name is involved. */
  lemma ClashComplete(s: State, u: State, id: NodeId, h: string, t: set<NodeId>, holders: set<NodeId>, n: NodeId)
    requires WrongFor(s, t) && Joined(s, u, id, h) && h != "" && holders == Holders(s, h)
    requires n in u.nodes && u.nodes[n].hostname != "" && Shares(u, n)
    ensures n in t + holders + {id}
  {
    JoinedShares(s, u, id, h, n);
  }

  lemma DeregisterNames(s: State, id: NodeId, t: set<NodeId>)
    requires NamesBut(s, t)
    ensures NamesBut(ApplyDeregister(s, id), t - {id})
  {
    if id in s.nodes {
      var u := ApplyDeregister(s, id);
      var h := s.nodes[id].hostname;
      assert u.nodes == s.nodes - {id};
      assert u.hostnameIdx == if h != "" then s.hostnameIdx - {h} else s.hostnameIdx;
      Unnamed(s, u, id, t);
    }
  }

  lemma Unnamed(s: State, u: State, id: NodeId, t: set<NodeId>)
    requires NamesBut(s, t) && id in s.nodes && u.nodes == s.nodes - {id}
    requires var h := s.nodes[id].hostname; u.hostnameIdx == if h != "" then s.hostnameIdx - {h} else s.hostnameIdx
    ensures NamesBut(u, t - {id})
  {
    var h := s.nodes[id].hostname;
    forall n | n in u.nodes ensures Shares(u, n) ==> Shares(s, n)
                            ensures Shares(s, n) && !Shares(u, n) ==> s.nodes[n].hostname == h
                            ensures s.nodes[n].hostname == h ==> Shares(s, n) {
      if Shares(s, n) {
        var m :| m in s.nodes && m != n && s.nodes[m].hostname == s.nodes[n].hostname;
        assert m != id ==> m in u.nodes;
      }
    }
  }

  lemma EntryNames(s: State, e: Entry, t: set<NodeId>)
    requires NamesBut(s, t)
    ensures NamesBut(ApplyEntry(s, e), ClashedBy(s, e, t))
  {
    if e.RegisterEntry? {
      RegisterNames(s, e, t);
    } else if e.DeregisterEntry? {
      DeregisterNames(s, e.id, t);
    } else {
      OtherEntryNames(s, e);
      SameNamesBut(s, ApplyEntry(s, e), t);
    }
  }

  lemma {:induction false} LogNames(s: State, log: seq<Entry>, t: set<NodeId>)
    requires NamesBut(s, t)
    ensures NamesBut(ApplyLog(s, log), Clashed(s, log, t))
    decreases |log|
  {
    if log != [] && !Malformed(log[0]) {
      EntryNames(s, log[0], t);
      LogNames(ApplyEntry(s, log[0]), log[1..], ClashedBy(s, log[0], t));
    }
  }

  /** After a restart the hostname index is the inverse of the hostnames if and only if no
      node that shared a name during the replay is still there. */
  lemma RecoveredNamesExactly(c: Codec, m: Machine, order: seq<NodeId>)
    requires Faithful(c) && MachineInv(c, m)
    requires HostsInverse(m.disk.snapshot) && Ranges(order, m.disk.snapshot.nodes)
    ensures HostsInverse(Restart(c, m.disk, order)) <==> Clashed(Loaded(m.disk.snapshot, order), m.log, {}) == {}
  {
    LogReads(c, m.disk.wal, m.log);
    LoadedInverse(m.disk.snapshot, order);
    ReplayedNames(Loaded(m.disk.snapshot, order), m.log);
  }

  lemma ReplayedNames(s: State, log: seq<Entry>)
    requires HostsInverse(s)
    ensures HostsInverse(ApplyLog(s, log)) <==> Clashed(s, log, {}) == {}
  {
    NamesButNone(s);
    LogNames(s, log, {});
    ClashedIsWrong(ApplyLog(s, log), Clashed(s, log, {}));
  }

  lemma LoadedInverse(s: State, order: seq<NodeId>)
    requires HostsInverse(s) && Ranges(order, s.nodes)
    ensures HostsInverse(Loaded(s, order))
  {
    LoadedHosts(s, order);
  }

  // --- a name given twice -----------------------------------------------------------------------

  const Newcomer := RegisterStep(Registration("k2", true, "bob", "a", RegistryLimits.Quiescent, true, 0, []))

  const NewcomerEntry := RegisterEntry(2, "k2", "bob", "a", RegistryLimits.Quiescent, 0)

  /** Node 1 under its first name, as a flush before the rename saved it. */
  const Saved := RegistryLimits.Renamed.(
    nodes := map[1 := RegistryLimits.Renamed.nodes[1].(hostname := "a")], hostnameIdx := map["a" := 1])

  /** The live server accepts node 2 under the name node 1 gave up, and logs it so. */
  lemma NewcomerAccepted()
    ensures RegisterPath(RegistryLimits.Renamed, Newcomer.r) == Allocated
    ensures Recorded(RegistryLimits.Renamed, Newcomer) == Some(NewcomerEntry)
  {
    var r, s := Newcomer.r, RegistryLimits.Renamed;
    var b := AddToBackbone(WithNode(Reserve(s, r), 2, FreshNode(r, [0])), 2);
    assert 2 in b.nodes && "a" !in b.hostnameIdx;
    assert Register(s, r) == SetNodeHostname(b, 2, "a");
    assert Register(s, r).nodes[2].hostname == "a";
  }

  /** Replaying that entry on the flushed state leaves two nodes named "a". */
  lemma TwoNodesOneName()
    ensures HostsInverse(Saved) && Clashed(Saved, [NewcomerEntry], {}) == {1, 2}
    ensures !HostsInverse(ApplyLog(Saved, [NewcomerEntry]))
  {
    assert [NewcomerEntry][1..] == [];
    assert Holders(Saved, "a") == {1};
    assert ClashedBy(Saved, NewcomerEntry, {}) == {1, 2};
    ReplayedNames(Saved, [NewcomerEntry]);
  }
}
