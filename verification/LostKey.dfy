/** A run after which a live node is not found by its key: a crash between the rename of a
    snapshot and the truncation of the log replays an old registration of that key. */
module LostKey {
  import opened Options
  import opened Registry
  import opened RegistryLimits
  import opened DeltaReplay
  import opened Loading
  import opened WalFile
  import opened Recovery
  import opened RecoveredKeys
  import opened NodeLaws
  import FreshStart

  // --- the steps: node 1 gives up its key, node 2 takes it, node 1 leaves -----------------------------

  const Turn := NodeStep(OpRotateKey(1, None, "k2", 0))
  const Reindex := IndexStep(1, "k1", "k2")
  const Heir := RegisterStep(Registration("k1", true, "bob", "", Quiescent, true, 0, []))
  const Gone := NodeStep(OpDeregister(1, true))

  const Turned := Registered.(nodes := map[1 := Registered.nodes[1].(key := "k2")])
  const Reindexed := Turned.(pubKeyIdx := map["k2" := 1])
  const Inherited := State(
    map[1 := Node("k2", "alice", "", [0], 0, Quiescent, true), 2 := Node("k1", "bob", "", [0], 0, Quiescent, true)],
    map[0 := Network("backbone", "open", "", false, 0, [1, 2], map[])],
    map["k2" := 1, "k1" := 2], map["alice" := 1, "bob" := 2], map[], map[], 3, 1, 1_000_000)
  const Left := Inherited.(
    nodes := map[2 := Inherited.nodes[2]],
    networks := map[0 := Inherited.networks[0].(members := [2])])

  const FirstEntry := RegisterEntry(1, "k1", "alice", "", Quiescent, 0)
  const HeirEntry := RegisterEntry(2, "k1", "bob", "", Quiescent, 0)

  const KeyLog: seq<Entry> := [FirstEntry, RotateEntry(1, "k2"), HeirEntry, DeregisterEntry(1)]

  const Rotating: seq<Event> := [Do(First)] + [Do(Turn)] + [Do(Reindex)]
  const Succeeding: seq<Event> := [Do(Heir)] + [Do(Gone)]
  const Saving: seq<Event> := [CopyState] + [RenameSnapshot]

  /** Nothing is truncated: the snapshot holds all of the log. */
  const KeyRun: seq<Event> := Rotating + Succeeding + Saving

  lemma FirstRecorded()
    ensures 0 in Initial.networks && Enabled(Initial, First) && Covered(Initial, First)
    ensures Recorded(Initial, First) == Some(FirstEntry) && Apply(Initial, First) == Registered
  {
    FirstStep();
  }

  lemma TurnRecorded()
    ensures 0 in Registered.networks && Covered(Registered, Turn)
    ensures Recorded(Registered, Turn) == Some(RotateEntry(1, "k2")) && Apply(Registered, Turn) == Turned
  {
    assert Apply(Registered, Turn).nodes == Turned.nodes;
  }

  lemma ReindexSilent()
    ensures 0 in Turned.networks && Enabled(Turned, Reindex) && Covered(Turned, Reindex)
    ensures Recorded(Turned, Reindex) == None && Apply(Turned, Reindex) == Reindexed
  {
    assert Apply(Turned, Reindex).pubKeyIdx == Reindexed.pubKeyIdx;
  }

  lemma HeirRecorded()
    ensures 0 in Reindexed.networks && Enabled(Reindexed, Heir) && Covered(Reindexed, Heir)
    ensures Recorded(Reindexed, Heir) == Some(HeirEntry) && Apply(Reindexed, Heir) == Inherited
    ensures 0 in Inherited.networks
  {
    var t := Apply(Reindexed, Heir);
    assert [1] + [2] == [1, 2];
    assert t.nodes == Inherited.nodes && t.networks == Inherited.networks;
    assert t.pubKeyIdx == Inherited.pubKeyIdx && t.ownerIdx == Inherited.ownerIdx;
  }

  lemma GoneRecorded()
    ensures 0 in Inherited.networks && 0 in Left.networks && Covered(Inherited, Gone)
    ensures Recorded(Inherited, Gone) == Some(DeregisterEntry(1)) && Apply(Inherited, Gone) == Left
  {
    var t := Apply(Inherited, Gone);
    assert [0][1..] == [] && RemoveFirst([1, 2], 1) == [2];
    assert DropFromNetworks(Inherited, 1, [0]).networks == Left.networks;
    assert t.nodes == Left.nodes;
  }

  // --- the run ------------------------------------------------------------------------------------------

  ghost predicate Short(c: Codec) {
    forall e :: e in KeyLog ==> |c.enc(e)| <= MAX_ENTRY
  }

  ghost predicate Leads(c: Codec, m: Machine, evs: seq<Event>, n: Machine) {
    Happens(c, m, evs) && RunMachine(c, m, evs) == n
  }

  lemma {:induction false} LeadsOn(c: Codec, m: Machine, evs: seq<Event>, n: Machine, more: seq<Event>, p: Machine)
    requires Leads(c, m, evs, n) && Leads(c, n, more, p)
    ensures Leads(c, m, evs + more, p)
    decreases |evs|
  {
    if evs == [] {
      assert evs + more == more;
    } else {
      assert (evs + more)[0] == evs[0] && (evs + more)[1..] == evs[1..] + more;
      LeadsOn(c, After(c, m, evs[0]), evs[1..], n, more, p);
    }
  }

  lemma OneEvent(c: Codec, m: Machine, ev: Event)
    requires 0 in m.live.networks && CanHappen(c, m, ev) && 0 in After(c, m, ev).live.networks
    ensures Leads(c, m, [ev], After(c, m, ev))
  {
    assert [ev][1..] == [];
  }

  /** A machine whose log file has room for the rest of the run. */
  ghost predicate At(c: Codec, m: Machine, live: State, log: seq<Entry>) {
    m.live == live && m.log == log && m.flush.Idle? && |m.disk.wal| <= |log| * (4 + MAX_ENTRY)
  }

  lemma RecordedDo(c: Codec, m: Machine, op: Op, e: Entry, t: State) returns (n: Machine)
    requires 0 in m.live.networks && Enabled(m.live, op) && Covered(m.live, op) && Recorded(m.live, op) == Some(e)
    requires At(c, m, m.live, m.log) && |m.log| < 4 && |c.enc(e)| <= MAX_ENTRY
    requires Apply(m.live, op) == t && 0 in t.networks
    ensures Leads(c, m, [Do(op)], n) && At(c, n, t, m.log + [e])
  {
    n := After(c, m, Do(op));
    OneEvent(c, m, Do(op));
  }

  lemma SilentDo(c: Codec, m: Machine, op: Op, t: State) returns (n: Machine)
    requires 0 in m.live.networks && Enabled(m.live, op) && Covered(m.live, op) && Recorded(m.live, op) == None
    requires At(c, m, m.live, m.log) && Apply(m.live, op) == t && 0 in t.networks
    ensures Leads(c, m, [Do(op)], n) && At(c, n, t, m.log)
  {
    n := After(c, m, Do(op));
    OneEvent(c, m, Do(op));
  }

  lemma Saves(c: Codec, m: Machine) returns (n: Machine)
    requires 0 in m.live.networks && m.flush.Idle?
    ensures Leads(c, m, Saving, n)
    ensures n.live == m.live == n.disk.snapshot && n.log == m.log
  {
    var p := After(c, m, CopyState);
    n := After(c, p, RenameSnapshot);
    OneEvent(c, m, CopyState);
    OneEvent(c, p, RenameSnapshot);
    LeadsOn(c, m, [CopyState], p, [RenameSnapshot], n);
  }

  /** Node 1 registers and rotates its key. */
  lemma Rotation(c: Codec, m: Machine) returns (n: Machine)
    requires Short(c) && At(c, m, Initial, [])
    ensures Leads(c, m, Rotating, n) && At(c, n, Reindexed, KeyLog[..2])
  {
    var a := Arrival(c, m);
    var b := Turning(c, a);
    n := Reindexing(c, b);
    LeadsOn(c, m, [Do(First)], a, [Do(Turn)], b);
    LeadsOn(c, m, [Do(First)] + [Do(Turn)], b, [Do(Reindex)], n);
  }

  lemma Arrival(c: Codec, m: Machine) returns (n: Machine)
    requires Short(c) && At(c, m, Initial, [])
    ensures Leads(c, m, [Do(First)], n) && At(c, n, Registered, KeyLog[..1])
  {
    FirstRecorded();
    assert FirstEntry == KeyLog[0] && [] + [KeyLog[0]] == KeyLog[..1];
    n := RecordedDo(c, m, First, FirstEntry, Registered);
  }

  lemma Turning(c: Codec, m: Machine) returns (n: Machine)
    requires Short(c) && At(c, m, Registered, KeyLog[..1])
    ensures Leads(c, m, [Do(Turn)], n) && At(c, n, Turned, KeyLog[..2])
  {
    TurnRecorded();
    assert RotateEntry(1, "k2") == KeyLog[1] && KeyLog[..1] + [KeyLog[1]] == KeyLog[..2];
    n := RecordedDo(c, m, Turn, RotateEntry(1, "k2"), Turned);
  }

  lemma Reindexing(c: Codec, m: Machine) returns (n: Machine)
    requires At(c, m, Turned, KeyLog[..2])
    ensures Leads(c, m, [Do(Reindex)], n) && At(c, n, Reindexed, KeyLog[..2])
  {
    ReindexSilent();
    n := SilentDo(c, m, Reindex, Reindexed);
  }

  /** Node 2 takes the key and node 1 leaves. */
  lemma Succession(c: Codec, m: Machine) returns (n: Machine)
    requires Short(c) && At(c, m, Reindexed, KeyLog[..2])
    ensures Leads(c, m, Succeeding, n) && At(c, n, Left, KeyLog)
  {
    var a := Inheritance(c, m);
    n := Departure(c, a);
    LeadsOn(c, m, [Do(Heir)], a, [Do(Gone)], n);
  }

  lemma Inheritance(c: Codec, m: Machine) returns (n: Machine)
    requires Short(c) && At(c, m, Reindexed, KeyLog[..2])
    ensures Leads(c, m, [Do(Heir)], n) && At(c, n, Inherited, KeyLog[..3])
  {
    HeirRecorded();
    assert HeirEntry == KeyLog[2] && KeyLog[..2] + [KeyLog[2]] == KeyLog[..3];
    n := RecordedDo(c, m, Heir, HeirEntry, Inherited);
  }

  lemma Departure(c: Codec, m: Machine) returns (n: Machine)
    requires Short(c) && At(c, m, Inherited, KeyLog[..3])
    ensures Leads(c, m, [Do(Gone)], n) && At(c, n, Left, KeyLog)
  {
    GoneRecorded();
    assert DeregisterEntry(1) == KeyLog[3] && KeyLog[..3] + [KeyLog[3]] == KeyLog;
    n := RecordedDo(c, m, Gone, DeregisterEntry(1), Left);
  }

  lemma KeyRunHappens(c: Codec) returns (m: Machine)
    requires Short(c)
    ensures Leads(c, Started(Initial, []), KeyRun, m)
    ensures m.live == Left && m.disk.snapshot == Left && m.log == KeyLog
  {
    FreshStart.FreshLoads();
    GoneRecorded();
    var a := Rotation(c, Started(Initial, []));
    var b := Succession(c, a);
    m := Saves(c, b);
    LeadsOn(c, Started(Initial, []), Rotating, a, Succeeding, b);
    LeadsOn(c, Started(Initial, []), Rotating + Succeeding, b, Saving, m);
  }

  // --- the loss -----------------------------------------------------------------------------------------

  /** A lost node that no entry removes or gives a new key stays lost. */
  lemma {:induction false} StaysLost(s: State, log: seq<Entry>, lost: set<NodeId>, n: NodeId)
    requires n in lost && forall e :: e in log ==> !((e.DeregisterEntry? || e.RotateEntry?) && e.id == n)
    ensures n in LostKeys(s, log, lost)
    decreases |log|
  {
    if log != [] && !Malformed(log[0]) {
      EntryTurnsKeys(s, log[0]);
      StaysLost(ApplyEntry(s, log[0]), log[1..], LostAfter(Keys(s), KeyChange(s, log[0]), lost), n);
    }
  }

  lemma HeirIsLost(order: seq<NodeId>)
    ensures 2 in LostKeys(Loaded(Left, order), KeyLog, {})
  {
    LoadedTags(Left, order);
    assert Keys(Left)[2] == "k1";
    TakenKeyIsLost(Loaded(Left, order), KeyLog, 2);
  }

  /** A replayed registration with a live node's key loses that node. */
  lemma TakenKeyIsLost(s: State, log: seq<Entry>, n: NodeId)
    requires log != [] && log[0].RegisterEntry? && !Malformed(log[0]) && log[0].id !in s.nodes
    requires n in s.nodes && s.nodes[n].key == log[0].key
    requires forall e :: e in log ==> !((e.DeregisterEntry? || e.RotateEntry?) && e.id == n)
    ensures n in LostKeys(s, log, {})
  {
    EntryTurnsKeys(s, log[0]);
    StaysLost(ApplyEntry(s, log[0]), log[1..], LostAfter(Keys(s), KeyChange(s, log[0]), {}), n);
  }

  /** Before the crash the key of node 2 leads to it; after the restart node 2 is live with the
      same key, and a registration with that key is answered another id. */
  lemma LiveNodeNotFound(c: Codec, order: seq<NodeId>, r: Registration)
    requires Faithful(c) && Short(c) && Ranges(order, Left.nodes) && r.keyOk && r.key == "k1"
    ensures Happens(c, Started(Initial, []), KeyRun)
    ensures var m := RunMachine(c, Started(Initial, []), KeyRun);
            var t := Restart(c, m.disk, order);
            && KeysIndexed(m.live) && 2 in t.nodes && t.nodes[2].key == "k1"
            && !KeysIndexed(t) && RegisterId(t, r) != Some(2)
  {
    var m := KeyRunHappens(c);
    FreshStart.FreshLoads();
    StartedInv(c, Initial, []);
    RunKeepsMachine(c, Started(Initial, []), KeyRun);
    HeirIsLost(order);
    HeirComesBack(c, m, order);
    LeftIsIndexed();
    OvershadowedExactly(Left, order);
    RecoveredKeysExactly(c, m, order);
    RecoveredNodeAnswers(c, m, order, r, 2);
  }

  lemma LeftIsIndexed()
    ensures KeysIndexed(Left) && Distinct(Keys(Left))
  {
  }

  lemma HeirComesBack(c: Codec, m: Machine, order: seq<NodeId>)
    requires Faithful(c) && MachineInv(c, m) && m.live == Left
    ensures var t := Restart(c, m.disk, order); 2 in t.nodes && t.nodes[2].key == "k1"
  {
    RestartPaints(c, m, order);
    ProjectMatches(m.live);
    ProjectMatches(Restart(c, m.disk, order));
    assert NodeMatches(m.live, Project(m.live), 2);
    assert NodeMatches(Restart(c, m.disk, order), Project(Restart(c, m.disk, order)), 2);
  }
}
