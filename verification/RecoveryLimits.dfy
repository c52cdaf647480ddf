/** What recovery does not bring back: made-up roles, the window of a flush, and hostnames. */
module RecoveryLimits {
  import opened Registry
  import opened RegistryInvariants
  import opened RegistryRuns
  import opened Options
  import opened RegistryLimits
  import opened DeltaReplay
  import opened Loading
  import opened WalFile
  import opened Recovery
  import opened RecoveredNames
  import FreshStart

  // --- roles ------------------------------------------------------------------------------------

  const Unset := NetworkStep(OpSetEnterprise(1, false, true))

  /** Network 1 after its enterprise flag was cleared: its member holds no role. */
  const Unranked := Founded.(networks := Founded.networks[1 := Founded.networks[1].(roles := map[])])

  lemma UnsetStep()
    ensures Apply(Founded, Unset) == Unranked
  {
    assert Apply(Founded, Unset).networks == Unranked.networks;
  }

  lemma UnsetIsReachable()
    ensures Legal(Initial, [First, Second, Unset]) && Run(Initial, [First, Second, Unset]) == Unranked
  {
    FirstStep();
    SecondStep();
    UnsetStep();
    RunThree(Initial, First, Registered, Second, Founded, Unset);
  }

  lemma UnrankedSound()
    ensures Sound(Unranked)
  {
    UnsetIsReachable();
    InitialInv();
    NoCutsOff();
    RunKeepsInv(Initial, [First, Second, Unset]);
    ValidIsSound(Unranked);
  }

  lemma NoCutsOff()
    ensures Legal(Initial, [First, Second, Unset]) && NoneCutsOff(Initial, [First, Second, Unset])
  {
    UnsetIsReachable();
    FirstStep();
    SecondStep();
    UnsetStep();
    var ops := [First, Second, Unset];
    assert ops[1..] == [Second, Unset] && ops[1..][1..] == [Unset] && [Unset][1..] == [];
    assert !CutsOff(Initial, First);
    assert NoneCutsOff(Unranked, []);
    assert NoneCutsOff(Founded, [Unset]);
    assert NoneCutsOff(Registered, [Second, Unset]);
  }

  /** A network saved without roles comes back with its first member as owner. */
  lemma RolesMadeUp(c: Codec, order: seq<NodeId>)
    requires Faithful(c)
    ensures Legal(Initial, [First, Second, Unset]) && Run(Initial, [First, Second, Unset]) == Unranked
    ensures Sound(Unranked) && !NothingMadeUp(Unranked, Unranked)
    ensures Project(Restart(c, Disk(Unranked, []), order)) != Project(Unranked)
  {
    UnsetIsReachable();
    UnrankedSound();
    assert Lists(Unranked, 1, 1) && Roleless(1, Unranked.networks[1]);
    MadeUpExactly(Unranked, Unranked);
    assert Read([]).entries == [] && Decode(c, []) == [];
    LoadedProjects(Unranked, order);
  }

  // --- the window of a flush ----------------------------------------------------------------------

  /** A node that registers between a flush's copy and its truncation is gone after a crash. */
  lemma LateNodeLost(c: Codec, order: seq<NodeId>)
    requires Faithful(c) && 0 in Started(Initial, []).live.networks
    requires CanHappen(c, Started(Initial, []).(flush := Copied(Initial, 0)), Do(First))
    ensures var m := Perform(c, Started(Initial, []).(flush := Copied(Initial, 0)), First);
            && 1 in m.live.nodes && 0 in m.live.networks && CanHappen(c, m, RenameSnapshot)
            && 1 !in Restart(c, After(c, m, RenameSnapshot).disk.(wal := []), order).nodes
  {
    FreshStart.FreshLoads();
    FirstStep();
    var m := Perform(c, Started(Initial, []).(flush := Copied(Initial, 0)), First);
    var d := After(c, m, RenameSnapshot).disk.(wal := []);
    assert d == Disk(Initial, []);
    assert Read([]).entries == [] && Decode(c, []) == [];
  }

  // --- hostnames ------------------------------------------------------------------------------------

  const NamedEntry := RegisterEntry(1, "k1", "alice", "a", Quiescent, 0)

  const NameTail: seq<Event> := [Do(Rename)] + ([Do(Newcomer)] + [])

  /** Registration, flush, rename, newcomer. */
  const NameRun: seq<Event> :=
    [Do(Named)] + ([CopyState] + ([RenameSnapshot] + ([TruncateWal] + NameTail)))

  ghost predicate Small(c: Codec) {
    |c.enc(NamedEntry)| <= MAX_ENTRY && |c.enc(NewcomerEntry)| <= MAX_ENTRY
  }

  /** The server as it is once the registration has been flushed. */
  ghost function Flushed(): Machine {
    Machine(Saved, Disk(Saved, []), Project(Saved), [], 0, Idle)
  }

  lemma NamedRecorded()
    ensures 0 in Initial.networks && Enabled(Initial, Named) && Covered(Initial, Named)
    ensures Recorded(Initial, Named) == Some(NamedEntry) && Apply(Initial, Named) == Saved
  {
    NamedStep();
    assert Register(Initial, Named.r).nodes[1].hostname == "a";
  }

  lemma RenameSilent()
    ensures 0 in Saved.networks && Enabled(Saved, Rename) && Covered(Saved, Rename)
    ensures Recorded(Saved, Rename).None? && Apply(Saved, Rename) == RegistryLimits.Renamed
  {
    var t := Apply(Saved, Rename);
    assert t.nodes == RegistryLimits.Renamed.nodes && t.hostnameIdx == RegistryLimits.Renamed.hostnameIdx;
  }

  lemma NewcomerRecorded()
    ensures 0 in RegistryLimits.Renamed.networks && Enabled(RegistryLimits.Renamed, Newcomer) && Covered(RegistryLimits.Renamed, Newcomer)
    ensures Recorded(RegistryLimits.Renamed, Newcomer) == Some(NewcomerEntry)
  {
    NewcomerAccepted();
  }

  lemma NewcomerKeeps()
    ensures 0 in RegistryLimits.Renamed.networks
    ensures var t := Apply(RegistryLimits.Renamed, Newcomer); HostsInverse(t) && 0 in t.networks
  {
    RenameOutrunsReaper();
    StepKeepsInv(RegistryLimits.Renamed, Newcomer);
  }

  lemma HappensCons(c: Codec, m: Machine, ev: Event, rest: seq<Event>)
    requires 0 in m.live.networks && CanHappen(c, m, ev) && Happens(c, After(c, m, ev), rest)
    ensures Happens(c, m, [ev] + rest) && RunMachine(c, m, [ev] + rest) == RunMachine(c, After(c, m, ev), rest)
  {
    assert ([ev] + rest)[1..] == rest;
  }

  /** The registration and its flush. */
  lemma FlushedHappens(c: Codec, rest: seq<Event>)
    requires Small(c) && Happens(c, Flushed(), rest)
    ensures var evs := [Do(Named)] + ([CopyState] + ([RenameSnapshot] + ([TruncateWal] + rest)));
            Happens(c, Started(Initial, []), evs)
            && RunMachine(c, Started(Initial, []), evs) == RunMachine(c, Flushed(), rest)
  {
    FreshStart.FreshLoads();
    NamedRecorded();
    var m := Started(Initial, []);
    var a := After(c, m, Do(Named));
    var b := After(c, a, CopyState);
    var d := After(c, b, RenameSnapshot);
    HappensCons(c, d, TruncateWal, rest);
    HappensCons(c, b, RenameSnapshot, [TruncateWal] + rest);
    HappensCons(c, a, CopyState, [RenameSnapshot] + ([TruncateWal] + rest));
    HappensCons(c, m, Do(Named), [CopyState] + ([RenameSnapshot] + ([TruncateWal] + rest)));
  }

  /** The rename and the newcomer. */
  lemma NewcomerHappens(c: Codec)
    requires Small(c)
    ensures Happens(c, Flushed(), NameTail)
    ensures var m := RunMachine(c, Flushed(), NameTail);
            m.live == Apply(RegistryLimits.Renamed, Newcomer) && m.log == [NewcomerEntry] && m.disk.snapshot == Saved
  {
    RenameSilent();
    NewcomerRecorded();
    NewcomerKeeps();
    SilentThenRecorded(c, Flushed(), Rename, RegistryLimits.Renamed, Newcomer, NewcomerEntry);
  }

  lemma RecordedStep(c: Codec, m: Machine, op: Op, e: Entry)
    requires 0 in m.live.networks && Enabled(m.live, op) && Covered(m.live, op)
    requires Recorded(m.live, op) == Some(e) && 0 in Apply(m.live, op).networks
    requires m.log == [] && m.disk.wal == [] && |c.enc(e)| <= MAX_ENTRY
    ensures Happens(c, m, [Do(op)] + [])
    ensures var t := RunMachine(c, m, [Do(op)] + []);
            t.live == Apply(m.live, op) && t.log == [e] && t.disk.snapshot == m.disk.snapshot
  {
    assert [] + [e] == [e];
    HappensCons(c, m, Do(op), []);
  }

  lemma SilentThenRecorded(c: Codec, m: Machine, a: Op, s: State, b: Op, e: Entry)
    requires 0 in m.live.networks && Enabled(m.live, a) && Covered(m.live, a)
    requires Recorded(m.live, a).None? && Apply(m.live, a) == s
    requires 0 in s.networks && Enabled(s, b) && Covered(s, b) && Recorded(s, b) == Some(e) && 0 in Apply(s, b).networks
    requires m.log == [] && m.disk.wal == [] && |c.enc(e)| <= MAX_ENTRY
    ensures var evs := [Do(a)] + ([Do(b)] + []);
            && Happens(c, m, evs)
            && var t := RunMachine(c, m, evs);
               t.live == Apply(s, b) && t.log == [e] && t.disk.snapshot == m.disk.snapshot
  {
    var n := m.(live := s);
    assert After(c, m, Do(a)) == n;
    RecordedStep(c, n, b, e);
    HappensCons(c, m, Do(a), [Do(b)] + []);
  }

  /** In the loaded snapshot node 1 still has its first name. */
  lemma LoadedClash(order: seq<NodeId>)
    requires Ranges(order, Saved.nodes)
    ensures Clashed(Loaded(Saved, order), [NewcomerEntry], {}) != {}
  {
    var s := Loaded(Saved, order);
    assert [NewcomerEntry][1..] == [];
    assert 1 in Holders(s, "a");
    assert 2 in ClashedBy(s, NewcomerEntry, {});
  }

  lemma NameRunHappens(c: Codec)
    requires Small(c)
    ensures Happens(c, Started(Initial, []), NameRun)
    ensures var m := RunMachine(c, Started(Initial, []), NameRun);
            m.live == Apply(RegistryLimits.Renamed, Newcomer) && m.log == [NewcomerEntry] && m.disk.snapshot == Saved
  {
    NewcomerHappens(c);
    FlushedHappens(c, NameTail);
  }

  /** One run of the server: a node registers as "a", a flush saves it, it is renamed, another
      registers as "a", and a crash comes. The live index is right; after the restart it is not. */
  lemma NameComesBackTwice(c: Codec, order: seq<NodeId>)
    requires Faithful(c) && Small(c) && Ranges(order, Saved.nodes)
    ensures Happens(c, Started(Initial, []), NameRun)
    ensures var m := RunMachine(c, Started(Initial, []), NameRun);
            HostsInverse(m.live) && !HostsInverse(Restart(c, m.disk, order))
  {
    NameRunHappens(c);
    FreshStart.FreshLoads();
    StartedInv(c, Initial, []);
    RunKeepsMachine(c, Started(Initial, []), NameRun);
    var m := RunMachine(c, Started(Initial, []), NameRun);
    TwoNodesOneName();
    NewcomerKeeps();
    RecoveredNamesExactly(c, m, order);
    LoadedClash(order);
  }
}
