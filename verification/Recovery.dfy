/** Crash recovery: the live run, the snapshot and the log on disk, and what a restart
    makes of them. */
module Recovery {
  import opened Options
  import opened Registry
  import opened RegistryInvariants
  import opened RegistrySteps
  import opened Overlap
  import opened DeltaReplay
  import opened Loading
  import opened WalFile

  // --- what the handlers record --------------------------------------------------------------

  function RecordedNode(s: State, op: NodeOp): Option<Entry> {
    match op
    case OpDeregister(id, a) => if id in s.nodes && a then Some(DeregisterEntry(id)) else None
    case OpRotateKey(id, expected, key, now) =>
      if id in s.nodes && (expected.None? || expected.value == s.nodes[id].key) then Some(RotateEntry(id, key)) else None
    case _ => None
  }

  function RecordedNetwork(s: State, op: NetworkOp): Option<Entry> {
    match op
    case OpCreate(id, name, rule, token, ent, a) =>
      if s.nextNet != 0 && s.nextNet in CreateNetwork(s, id, name, rule, token, ent, a).networks && s.nextNet !in s.networks
      then Some(CreateEntry(s.nextNet, name, if rule == "" then "open" else rule, token, ent, id)) else None
    case OpJoin(id, k, token, a) => if a && JoinAllowed(s, id, k, token) then Some(JoinEntry(id, k)) else None
    case OpLeave(id, k, a) => if a && LeaveAllowed(s, id, k) then Some(LeaveEntry(id, k)) else None
    case OpDelete(k, a) => if k != 0 && a && k in s.networks then Some(DeleteEntry(k)) else None
    case _ => None
  }

  /** The entry a step appends to the log, if any. */
  function Recorded(s: State, op: Op): Option<Entry>
    requires 0 in s.networks
  {
    match op
    case RegisterStep(r) =>
      if RegisterPath(s, r) == Allocated
      then Some(RegisterEntry(s.nextNode, r.key, r.owner, Register(s, r).nodes[s.nextNode].hostname, r.endpoint, r.now))
      else None
    case IndexStep(_, _, _) => None
    case NodeStep(d) => RecordedNode(s, d)
    case NetworkStep(d) => RecordedNetwork(s, d)
    case RoleStep(_) => None
  }

  /** Steps that change the projected state without a log entry. */
  ghost predicate Unrecorded(s: State, op: Op)
    requires 0 in s.networks
  {
    match op
    case RegisterStep(r) => RegisterPath(s, r) in {KeyReclaimed, OwnerReclaimed}
    case IndexStep(_, _, _) => false
    case NodeStep(d) => d.OpReap? && ApplyNode(s, d) != s
    case NetworkStep(d) => (d.OpSetEnterprise? || (d.OpRespond? && d.accept)) && ApplyNetwork(s, d) != s
    case RoleStep(d) => ApplyRole(s, d) != s
  }

  /** Keys are non-empty and no counter is about to wrap. */
  predicate Ordinary(e: Entry) {
    && ((e.RegisterEntry? || e.RotateEntry?) ==> e.key != "")
    && (e.RegisterEntry? ==> e.id + 1 < NODE_LIMIT)
    && (e.CreateEntry? ==> e.net + 1 < NET_LIMIT)
  }

  ghost predicate Covered(s: State, op: Op)
    requires 0 in s.networks
  {
    !Unrecorded(s, op) && (Recorded(s, op).Some? ==> Ordinary(Recorded(s, op).value))
  }

  /** What recovery needs of a state: agreement in both directions, ids below the counters,
      and slices that behave as sets. A recovered state has it too. */
  ghost predicate Sound(s: State) {
    Clean(s) && 0 in s.networks && WellFormed(Project(s))
  }

  /** A valid state whose counters have not wrapped is sound. */
  lemma ValidIsSound(s: State)
    requires Inv(s) && Tight(s) && s.nextNode != 0 && s.nextNet != 0
    ensures Sound(s)
  {
    ProjectWellFormed(s);
  }

  lemma SoundNode(s: State, n: NodeId)
    requires Sound(s) && n in s.nodes
    ensures 0 < n < s.nextNode
  {
    ProjectMatches(s);
    assert NodeMatches(s, Project(s), n);
  }

  lemma SoundEdge(s: State, n: NodeId, k: NetId)
    requires Sound(s)
    ensures Points(s, n, k) ==> Lists(s, k, n)
    ensures Lists(s, k, n) && n in s.nodes ==> Points(s, n, k)
  {
    ProjectMatches(s);
    assert EdgeMatches(s, Project(s), n, k) && NodeMatches(s, Project(s), n);
  }

  lemma SoundNextNet(s: State)
    requires Sound(s)
    ensures s.nextNet !in s.networks && s.nextNode !in s.nodes
  {
    ProjectMatches(s);
    if s.nextNode in s.nodes { SoundNode(s, s.nextNode); }
  }

  // --- a recorded handler has the effect of its entry ----------------------------------------

  lemma HostnameCore(s: State, id: NodeId, hostname: string)
    requires id in s.nodes
    ensures SameCore(SetNodeHostname(s, id, hostname), s)
  {
  }

  lemma SameCoreTrans(a: State, b: State, c: State)
    requires SameCore(a, b) && SameCore(b, c)
    ensures SameCore(a, c)
  {
  }

  lemma RegisterCore(s: State, r: Registration, hostname: string)
    requires 0 in s.networks && s.nextNode !in s.nodes && s.nextNode != 0
    ensures SameCore(Bare(Reserve(s, r), r, s.nextNode, [0]),
                     ApplyRegister(s, RegisterEntry(s.nextNode, r.key, r.owner, hostname, r.endpoint, r.now)))
  {
    RegisterBare(s, r);
    RegisterReplayed(s, RegisterEntry(s.nextNode, r.key, r.owner, hostname, r.endpoint, r.now));
  }

  lemma RegisterBare(s: State, r: Registration)
    requires 0 in s.networks
    ensures var b := Bare(Reserve(s, r), r, s.nextNode, [0]);
            && b.nodes == s.nodes[s.nextNode := FreshNode(r, [0])] && b.networks == AddToBackbone(s, s.nextNode).networks
            && b.nextNode == (s.nextNode + 1) % NODE_LIMIT && b.nextNet == s.nextNet
  {
  }

  lemma RegisterReplayed(s: State, e: Entry)
    requires e.RegisterEntry? && 0 in s.networks && e.id == s.nextNode && e.id !in s.nodes
    ensures var u := ApplyRegister(s, e);
            && u.nodes == s.nodes[e.id := ReplayedNode(e)]
            && u.networks == AddToBackbone(s, e.id).networks
            && u.nextNode == (s.nextNode + 1) % NODE_LIMIT && u.nextNet == s.nextNet
  {
  }

  lemma RegisterLive(s: State, r: Registration)
    requires Sound(s) && RegisterPath(s, r) == Allocated
    ensures SameCore(Register(s, r), ApplyEntry(s, Recorded(s, RegisterStep(r)).value))
  {
    var id := s.nextNode;
    SoundNextNet(s);
    var b := Bare(Reserve(s, r), r, id, [0]);
    var e := Recorded(s, RegisterStep(r)).value;
    RegisterCore(s, r, e.hostname);
    HostnameCore(b, id, r.hostname);
    SameCoreTrans(Register(s, r), b, ApplyEntry(s, e));
  }

  lemma SameDrops(a: State, b: State, id: NodeId, networks: seq<NetId>)
    requires a.networks == b.networks && NoDup(networks)
    ensures DropFromNetworks(a, id, networks).networks == DropFromNetworks(b, id, networks).networks
  {
    forall k | k in a.networks
      ensures DropFromNetworks(a, id, networks).networks[k] == DropFromNetworks(b, id, networks).networks[k]
    {
      DropFromNetworksAt(a, id, networks, k);
      DropFromNetworksAt(b, id, networks, k);
    }
  }

  lemma DeregisterLive(s: State, id: NodeId)
    requires Clean(s) && id in s.nodes
    ensures SameCore(Deregister(s, id, true), ApplyDeregister(s, id))
  {
    var n := s.nodes[id];
    var s1 := s.(pubKeyIdx := s.pubKeyIdx - {n.key},
                 ownerIdx := if n.owner != "" then s.ownerIdx - {n.owner} else s.ownerIdx,
                 hostnameIdx := if n.hostname != "" then s.hostnameIdx - {n.hostname} else s.hostnameIdx,
                 nodes := s.nodes - {id});
    SameDrops(s, s1, id, n.networks);
  }

  lemma RotateLive(s: State, id: NodeId, expected: Option<string>, key: string, now: int)
    requires id in s.nodes && (expected.None? || expected.value == s.nodes[id].key)
    ensures SameCore(RotateKey(s, id, expected, key, now), ApplyRotate(s, id, key))
  {
  }

  lemma CreateLive(s: State, op: NetworkOp)
    requires Sound(s) && op.OpCreate? && RecordedNetwork(s, op).Some?
    ensures SameCore(ApplyNetwork(s, op), ApplyEntry(s, RecordedNetwork(s, op).value))
  {
    SoundEdge(s, op.id, s.nextNet);
    if op.id in s.nodes { SoundNode(s, op.id); }
  }

  lemma JoinLive(s: State, id: NodeId, k: NetId)
    requires Sound(s) && id in s.nodes && k in s.networks && k !in s.nodes[id].networks
    ensures SameCore(Link(s, id, k), ApplyJoin(s, id, k))
  {
    SoundEdge(s, id, k);
  }

  lemma LeaveLive(s: State, id: NodeId, k: NetId)
    requires LeaveAllowed(s, id, k)
    ensures SameCore(Leave(s, id, k, true), ApplyLeave(s, id, k))
  {
    DropsCommute(s, id, k);
  }

  lemma DeleteLive(s: State, k: NetId)
    requires k != 0 && k in s.networks
    ensures SameCore(DeleteNetwork(s, k, true), ApplyDelete(s, k))
  {
  }

  lemma NodeStepRefines(s: State, op: NodeOp)
    requires Sound(s) && (op.OpReap? ==> ApplyNode(s, op) == s)
    ensures RecordedNode(s, op).None? ==> SameCore(ApplyNode(s, op), s)
    ensures RecordedNode(s, op).Some? ==> SameCore(ApplyNode(s, op), ApplyEntry(s, RecordedNode(s, op).value))
  {
    match op
    case OpDeregister(id, a) => if id in s.nodes && a { DeregisterLive(s, id); }
    case OpRotateKey(id, e, key, now) => if RecordedNode(s, op).Some? { RotateLive(s, id, e, key, now); }
    case OpSetHostname(id, h, a) => SetHostnameCore(s, id, h, a);
    case OpHeartbeat(id, now, a) => HeartbeatCore(s, id, now, a);
    case OpReap(id, t) => assert SameCore(s, s);
  }

  lemma SetHostnameCore(s: State, id: NodeId, hostname: string, authorized: bool)
    ensures SameCore(SetHostname(s, id, hostname, authorized), s)
  {
  }

  lemma HeartbeatCore(s: State, id: NodeId, now: int, authorized: bool)
    ensures SameCore(Heartbeat(s, id, now, authorized), s)
  {
  }

  lemma RecordedNetworkCore(s: State, op: NetworkOp)
    requires Sound(s) && RecordedNetwork(s, op).Some?
    ensures SameCore(ApplyNetwork(s, op), ApplyEntry(s, RecordedNetwork(s, op).value))
  {
    match op
    case OpCreate(id, name, rule, token, ent, a) => CreateLive(s, op);
    case OpJoin(id, k, token, a) => JoinOp(s, op);
    case OpLeave(id, k, a) => LeaveOp(s, op);
    case OpDelete(k, a) => DeleteOp(s, op);
  }

  lemma LeaveOp(s: State, op: NetworkOp)
    requires op.OpLeave? && RecordedNetwork(s, op).Some?
    ensures SameCore(ApplyNetwork(s, op), ApplyEntry(s, RecordedNetwork(s, op).value))
  {
    LeaveLive(s, op.id, op.net);
  }

  lemma DeleteOp(s: State, op: NetworkOp)
    requires op.OpDelete? && RecordedNetwork(s, op).Some?
    ensures SameCore(ApplyNetwork(s, op), ApplyEntry(s, RecordedNetwork(s, op).value))
  {
    DeleteLive(s, op.net);
  }

  lemma JoinOp(s: State, op: NetworkOp)
    requires Sound(s) && op.OpJoin? && RecordedNetwork(s, op).Some?
    ensures SameCore(ApplyNetwork(s, op), ApplyEntry(s, RecordedNetwork(s, op).value))
  {
    JoinLive(s, op.id, op.net);
  }

  lemma UnrecordedCore(s: State, op: NetworkOp)
    requires Sound(s) && RecordedNetwork(s, op).None?
    requires op.OpSetEnterprise? || (op.OpRespond? && op.accept) ==> ApplyNetwork(s, op) == s
    ensures SameCore(ApplyNetwork(s, op), s)
  {
    SoundNextNet(s);
  }

  lemma RegisterStepCore(s: State, r: Registration)
    requires Sound(s) && Covered(s, RegisterStep(r))
    ensures var e := Recorded(s, RegisterStep(r)); SameCore(Register(s, r), if e.Some? then ApplyEntry(s, e.value) else s)
  {
    if RegisterPath(s, r) == Allocated {
      RegisterLive(s, r);
    } else if RegisterPath(s, r) == Refreshed {
      RefreshCore(s, r);
    }
  }

  lemma NetworkStepCore(s: State, op: NetworkOp)
    requires Sound(s) && Covered(s, NetworkStep(op))
    ensures var e := RecordedNetwork(s, op); SameCore(ApplyNetwork(s, op), if e.Some? then ApplyEntry(s, e.value) else s)
  {
    if RecordedNetwork(s, op).Some? { RecordedNetworkCore(s, op); } else { UnrecordedCore(s, op); }
  }

  /** What a covered step does to networks, keys and network lists its log entry does too. */
  lemma StepCore(s: State, op: Op)
    requires Sound(s) && Covered(s, op)
    ensures var e := Recorded(s, op); SameCore(Apply(s, op), if e.Some? then ApplyEntry(s, e.value) else s)
  {
    match op
    case RegisterStep(r) => RegisterStepCore(s, r);
    case IndexStep(id, prev, key) =>
    case NodeStep(d) => NodeStepRefines(s, d);
    case NetworkStep(d) => NetworkStepCore(s, d);
    case RoleStep(d) =>
  }

  /** Every covered step changes the projected state exactly as its log entry does, and
      not at all if it logs nothing. */
  lemma StepRefines(s: State, op: Op)
    requires Sound(s) && Covered(s, op)
    ensures Recorded(s, op).None? ==> Project(Apply(s, op)) == Project(s)
    ensures Recorded(s, op).Some? ==> Project(Apply(s, op)) == Project(ApplyEntry(s, Recorded(s, op).value))
  {
    StepCore(s, op);
    SameCoreProject(Apply(s, op), if Recorded(s, op).Some? then ApplyEntry(s, Recorded(s, op).value) else s);
  }

  lemma FastCore(s: State, r: Registration)
    requires IsKnownLive(s, r.key)
    ensures SameCore(FastPath(s, r), s)
  {
  }

  lemma ClaimCore(s: State, id: NodeId, owner: string)
    requires id in s.nodes
    ensures SameCore(ClaimOwner(s, id, owner), s)
  {
  }

  lemma RefreshCore(s: State, r: Registration)
    requires IsKnownLive(s, r.key)
    ensures SameCore(FastPath(s, r), s) && SameCore(SlowPath(s, r), s)
  {
    var id := s.pubKeyIdx[r.key];
    var c := ClaimOwner(FastPath(s, r), id, r.owner);
    FastCore(s, r);
    ClaimCore(FastPath(s, r), id, r.owner);
    SameCoreTrans(c, FastPath(s, r), s);
    HostnameCore(c, id, r.hostname);
    SameCoreTrans(SlowPath(s, r), c, s);
  }

  /** The recorded entry is well made and recordable in the projected state. */
  lemma RecordedIsRecordable(s: State, op: Op)
    requires Sound(s) && Covered(s, op) && Recorded(s, op).Some?
    ensures WellMade(Recorded(s, op).value)
    ensures Recordable(Project(s), Projected(Recorded(s, op).value).value)
  {
    match op
    case RegisterStep(r) => RecordableRegister(s, r);
    case NodeStep(d) => RecordableNode(s, d);
    case NetworkStep(d) => RecordableNetwork(s, d);
  }

  lemma RecordableRegister(s: State, r: Registration)
    requires 0 in s.networks && Recorded(s, RegisterStep(r)).Some? && Ordinary(Recorded(s, RegisterStep(r)).value)
    ensures WellMade(Recorded(s, RegisterStep(r)).value)
    ensures Recordable(Project(s), Projected(Recorded(s, RegisterStep(r)).value).value)
  {
  }

  lemma RecordableNode(s: State, op: NodeOp)
    requires Sound(s) && RecordedNode(s, op).Some? && Ordinary(RecordedNode(s, op).value)
    ensures WellMade(RecordedNode(s, op).value)
    ensures Recordable(Project(s), Projected(RecordedNode(s, op).value).value)
  {
    SoundNode(s, op.id);
    ProjectMatches(s);
    assert NodeMatches(s, Project(s), op.id);
  }

  lemma RecordableNetwork(s: State, op: NetworkOp)
    requires Sound(s) && RecordedNetwork(s, op).Some? && Ordinary(RecordedNetwork(s, op).value)
    ensures WellMade(RecordedNetwork(s, op).value)
    ensures Recordable(Project(s), Projected(RecordedNetwork(s, op).value).value)
  {
    ProjectMatches(s);
    var v := Project(s);
    match op
    case OpCreate(id, _, _, _, _, _) => RecordableCreate(s, op, v);
    case OpJoin(id, k, _, _) =>
      assert NodeMatches(s, v, id) && EdgeMatches(s, v, id, k);
      SoundEdge(s, id, k);
    case OpLeave(id, k, _) => assert EdgeMatches(s, v, id, k);
    case OpDelete(k, _) =>
  }

  lemma RecordableCreate(s: State, op: NetworkOp, v: View)
    requires Sound(s) && op.OpCreate? && Matches(s, v)
    requires RecordedNetwork(s, op).Some? && Ordinary(RecordedNetwork(s, op).value)
    ensures WellMade(RecordedNetwork(s, op).value)
    ensures Recordable(v, Projected(RecordedNetwork(s, op).value).value)
  {
    SoundNode(s, op.id);
    assert NodeMatches(s, v, op.id);
  }

  lemma ProjectWellFormed(s: State)
    requires Inv(s) && Tight(s) && s.nextNode != 0 && s.nextNet != 0
    ensures WellFormed(Project(s))
  {
    var v := Project(s);
    ProjectMatches(s);
    forall x | x in v.lists ensures x.1 in v.nets && 0 < x.0 < v.nextNode && (x.0 in v.nodes ==> x in v.points) {
      assert EdgeMatches(s, v, x.0, x.1) && NodeMatches(s, v, x.0);
      assert Lists(s, x.1, x.0);
      assert Issued(s, x.0);
    }
    forall x | x in v.points ensures x in v.lists && x.0 in v.nodes {
      assert EdgeMatches(s, v, x.0, x.1) && NodeMatches(s, v, x.0);
      assert Points(s, x.0, x.1);
      assert Lists(s, x.1, x.0);
    }
    forall n | n in v.nodes ensures 0 < n < v.nextNode {
      assert NodeMatches(s, v, n);
      assert Issued(s, n);
    }
  }

  lemma InvIsClean(s: State)
    requires Inv(s) && Tight(s)
    ensures Clean(s) && 0 in s.networks
  {
  }

  // --- the machine: memory, disk and the flush in progress ------------------------------------

  /** How entries are written and read; encoding is foreign code, taken as an inverse pair. */
  datatype Codec = Codec(enc: Entry -> bytes, dec: bytes -> Option<Entry>)

  ghost predicate Faithful(c: Codec) {
    forall e: Entry :: c.dec(c.enc(e)) == Some(e)
  }

  datatype Disk = Disk(snapshot: State, wal: bytes)

  /** A flush copies the state, renames the snapshot file and truncates the log. */
  datatype Flush = Idle | Copied(state: State, upTo: nat) | Renamed

  /** `base` and `log` are history: a view the log starts from, and the entries recorded since.
      The snapshot on disk holds the first `ahead` of them. */
  datatype Machine = Machine(live: State, disk: Disk, base: View, log: seq<Entry>, ahead: nat, flush: Flush)

  /** `order` is the order in which loading ranges over the nodes. */
  datatype Event = Do(op: Op) | CopyState | RenameSnapshot | TruncateWal | Crash(order: seq<NodeId>)

  /** Operations may run while a flush is under way; the log is truncated only if none was
      recorded since the copy (see WindowIsLost). */
  ghost predicate CanHappen(c: Codec, m: Machine, ev: Event)
    requires 0 in m.live.networks
  {
    match ev
    case Do(op) =>
      && Enabled(m.live, op) && Covered(m.live, op)
      && (Recorded(m.live, op).Some? ==>
            var data := c.enc(Recorded(m.live, op).value);
            |data| <= MAX_ENTRY && 4 + |data| + |m.disk.wal| <= MAX_WAL)
    case CopyState => m.flush.Idle?
    case RenameSnapshot => m.flush.Copied?
    case TruncateWal => m.flush.Renamed? && m.ahead == |m.log|
    case Crash(_) => true
  }

  ghost function Perform(c: Codec, m: Machine, op: Op): Machine
    requires 0 in m.live.networks && CanHappen(c, m, Do(op))
  {
    var live := Apply(m.live, op);
    match Recorded(m.live, op)
    case None => m.(live := live)
    case Some(e) => m.(live := live, log := m.log + [e], disk := m.disk.(wal := m.disk.wal + Frame(c.enc(e))))
  }

  ghost function After(c: Codec, m: Machine, ev: Event): Machine
    requires 0 in m.live.networks && CanHappen(c, m, ev)
  {
    match ev
    case Do(op) => Perform(c, m, op)
    case CopyState => m.(flush := Copied(m.live, |m.log|))
    case RenameSnapshot =>
      m.(disk := m.disk.(snapshot := m.flush.state), ahead := m.flush.upTo, flush := Renamed)
    case TruncateWal => m.(disk := m.disk.(wal := []), base := Project(m.live), log := [], ahead := 0, flush := Idle)
    case Crash(order) => Rebased(m, Restart(c, m.disk, order), Fill(m.disk.snapshot))
  }

  /** After a restart the base carries the roles loading made up. */
  ghost function Rebased(m: Machine, live: State, fill: map<Edge, Role>): Machine {
    m.(live := live, base := Paint(m.base, fill), flush := Idle)
  }

  /** What startup does: load the snapshot and apply the entries that can be read and decoded. */
  ghost function Restart(c: Codec, disk: Disk, order: seq<NodeId>): State {
    ApplyLog(Loaded(disk.snapshot, order), Decode(c, Read(disk.wal).entries))
  }

  ghost function Decode(c: Codec, entries: seq<bytes>): seq<Entry>
    decreases |entries|
  {
    if entries == [] then []
    else match c.dec(entries[0])
      case None => Decode(c, entries[1..])
      case Some(e) => [e] + Decode(c, entries[1..])
  }

  ghost function Encode(c: Codec, log: seq<Entry>): (r: seq<bytes>)
    ensures |r| == |log| && forall i :: 0 <= i < |log| ==> r[i] == c.enc(log[i])
    decreases |log|
  {
    if log == [] then [] else [c.enc(log[0])] + Encode(c, log[1..])
  }

  lemma {:induction false} DecodeEncode(c: Codec, log: seq<Entry>)
    requires Faithful(c)
    ensures Decode(c, Encode(c, log)) == log
    decreases |log|
  {
    if log != [] {
      assert Encode(c, log)[1..] == Encode(c, log[1..]);
      DecodeEncode(c, log[1..]);
    }
  }

  ghost predicate Storable(c: Codec, log: seq<Entry>) {
    && (forall i :: 0 <= i < |log| ==> WellMade(log[i]))
    && (forall i :: 0 <= i < |log| ==> |c.enc(log[i])| <= MAX_ENTRY)
  }

  /** The log leads from the base to the live state. */
  ghost predicate LogExplains(m: Machine)
    requires forall i :: 0 <= i < |m.log| ==> WellMade(m.log[i])
  {
    && WellFormed(m.base) && Valid(m.base, ProjectLog(m.log))
    && Project(m.live) == Replay(m.base, ProjectLog(m.log))
  }

  /** `s` looks like the base after `n` entries, up to roles that loading makes up. */
  ghost predicate SnapshotFits(s: State, base: View, log: seq<Delta>, n: nat)
    requires n <= |log|
  {
    && Clean(s) && 0 in s.networks
    && Paint(Project(s), Fill(s)) == Paint(Replay(base, log[..n]), Fill(s))
  }

  ghost predicate CopyFits(f: Flush, base: View, log: seq<Delta>) {
    f.Copied? ==> f.upTo <= |log| && Clean(f.state) && 0 in f.state.networks
                  && Project(f.state) == Replay(base, log[..f.upTo])
  }

  ghost predicate MachineInv(c: Codec, m: Machine) {
    && Sound(m.live) && Storable(c, m.log)
    && m.disk.wal == Contents(Encode(c, m.log)) && |m.disk.wal| <= MAX_WAL
    && LogExplains(m)
    && m.ahead <= |m.log| == |ProjectLog(m.log)|
    && SnapshotFits(m.disk.snapshot, m.base, ProjectLog(m.log), m.ahead)
    && CopyFits(m.flush, m.base, ProjectLog(m.log))
  }

  lemma {:induction false} ProjectLogAppend(a: seq<Entry>, e: Entry)
    requires (forall i :: 0 <= i < |a| ==> WellMade(a[i])) && WellMade(e)
    ensures forall i :: 0 <= i < |a + [e]| ==> WellMade((a + [e])[i])
    ensures ProjectLog(a + [e]) == ProjectLog(a) + [Projected(e).value]
    decreases |a|
  {
    if a == [] {
      assert a + [e] == [e];
      assert ProjectLog([e]) == [Projected(e).value] + ProjectLog([]);
    } else {
      assert (a + [e])[0] == a[0] && (a + [e])[1..] == a[1..] + [e];
      ProjectLogAppend(a[1..], e);
    }
  }

  lemma {:induction false} EncodeAppend(c: Codec, a: seq<Entry>, e: Entry)
    ensures Encode(c, a + [e]) == Encode(c, a) + [c.enc(e)]
  {
    var l, r := Encode(c, a + [e]), Encode(c, a) + [c.enc(e)];
    assert forall i :: 0 <= i < |l| ==> l[i] == r[i];
  }

  // --- operations ------------------------------------------------------------------------------

  lemma DoKeepsLive(s: State, op: Op)
    requires Sound(s) && Covered(s, op)
    ensures Sound(Apply(s, op))
    ensures Recorded(s, op).None? ==> Project(Apply(s, op)) == Project(s)
    ensures Recorded(s, op).Some? ==>
      && WellMade(Recorded(s, op).value)
      && Recordable(Project(s), Projected(Recorded(s, op).value).value)
      && Project(Apply(s, op)) == Step(Project(s), Projected(Recorded(s, op).value).value)
  {
    StepCore(s, op);
    StepRefines(s, op);
    if Recorded(s, op).Some? {
      RecordedIsRecordable(s, op);
      EntryKeepsSound(s, Recorded(s, op).value);
      CleanCore(Apply(s, op), ApplyEntry(s, Recorded(s, op).value));
    } else {
      CleanCore(Apply(s, op), s);
    }
  }

  lemma EntryKeepsSound(s: State, e: Entry)
    requires Sound(s) && WellMade(e) && Recordable(Project(s), Projected(e).value)
    ensures Sound(ApplyEntry(s, e)) && Project(ApplyEntry(s, e)) == Step(Project(s), Projected(e).value)
  {
    EntryCommutes(s, e);
    StepWellFormed(Project(s), Projected(e).value);
  }

  lemma CleanCore(a: State, b: State)
    requires SameCore(a, b) && Clean(b) && 0 in b.networks
    ensures Clean(a) && 0 in a.networks
  {
  }

  lemma LogGrows(c: Codec, base: View, live: View, log: seq<Entry>, e: Entry)
    requires Storable(c, log) && WellMade(e) && |c.enc(e)| <= MAX_ENTRY
    requires Valid(base, ProjectLog(log)) && live == Replay(base, ProjectLog(log))
    requires Recordable(live, Projected(e).value)
    ensures Storable(c, log + [e]) && Valid(base, ProjectLog(log + [e]))
    ensures Replay(base, ProjectLog(log + [e])) == Step(live, Projected(e).value)
    ensures Contents(Encode(c, log + [e])) == Contents(Encode(c, log)) + Frame(c.enc(e))
    ensures ProjectLog(log + [e]) == ProjectLog(log) + [Projected(e).value]
  {
    ProjectLogAppend(log, e);
    EncodeAppend(c, log, e);
    AppendExtends(Encode(c, log), c.enc(e));
    ReplayAppend(base, ProjectLog(log), [Projected(e).value]);
    OneStep(live, Projected(e).value);
  }

  lemma PrefixKept(log: seq<Delta>, d: Delta, n: nat)
    requires n <= |log|
    ensures (log + [d])[..n] == log[..n]
  {
  }

  lemma DoKeepsMachine(c: Codec, m: Machine, op: Op)
    requires MachineInv(c, m) && CanHappen(c, m, Do(op))
    ensures MachineInv(c, Perform(c, m, op))
  {
    DoKeepsLive(m.live, op);
    if Recorded(m.live, op).Some? { AppendKeepsMachine(c, m, Apply(m.live, op), Recorded(m.live, op).value); }
  }

  lemma AppendKeepsMachine(c: Codec, m: Machine, live: State, e: Entry)
    requires MachineInv(c, m) && Sound(live) && WellMade(e) && Recordable(Project(m.live), Projected(e).value)
    requires Project(live) == Step(Project(m.live), Projected(e).value)
    requires |c.enc(e)| <= MAX_ENTRY && 4 + |c.enc(e)| + |m.disk.wal| <= MAX_WAL
    ensures MachineInv(c, m.(live := live, log := m.log + [e], disk := m.disk.(wal := m.disk.wal + Frame(c.enc(e)))))
  {
    LogGrows(c, m.base, Project(m.live), m.log, e);
    PrefixKept(ProjectLog(m.log), Projected(e).value, m.ahead);
    if m.flush.Copied? { PrefixKept(ProjectLog(m.log), Projected(e).value, m.flush.upTo); }
  }

  lemma OneStep(v: View, d: Delta)
    ensures Replay(v, [d]) == Step(v, d) && (Valid(v, [d]) <==> Recordable(v, d))
  {
    assert [d][1..] == [];
  }

  // --- flushes ------------------------------------------------------------------------------------

  lemma CopyKeepsMachine(c: Codec, m: Machine)
    requires MachineInv(c, m) && CanHappen(c, m, CopyState)
    ensures MachineInv(c, After(c, m, CopyState))
  {
    assert ProjectLog(m.log)[..|m.log|] == ProjectLog(m.log);
  }

  lemma TruncateKeepsMachine(c: Codec, m: Machine)
    requires MachineInv(c, m) && CanHappen(c, m, TruncateWal)
    ensures MachineInv(c, After(c, m, TruncateWal))
  {
    assert Contents(Encode(c, [])) == [];
    assert ProjectLog(m.log)[..m.ahead] == ProjectLog(m.log);
    assert ProjectLog([])[..0] == [];
  }

  // --- restarts -----------------------------------------------------------------------------------

  lemma LogReads(c: Codec, wal: bytes, log: seq<Entry>)
    requires Faithful(c) && Storable(c, log) && wal == Contents(Encode(c, log))
    ensures Read(wal).entries == Encode(c, log) && Decode(c, Read(wal).entries) == log
  {
    ReadRecords(Encode(c, log), []);
    assert wal + [] == wal;
    DecodeEncode(c, log);
  }

  /** The projection a restart comes back with: the live one, with the roles loading makes up. */
  lemma RestartPaints(c: Codec, m: Machine, order: seq<NodeId>)
    requires Faithful(c) && MachineInv(c, m)
    ensures Project(Restart(c, m.disk, order)) == Paint(Project(m.live), Fill(m.disk.snapshot))
    ensures Sound(Restart(c, m.disk, order))
  {
    var snap, fill, log, n := m.disk.snapshot, Fill(m.disk.snapshot), ProjectLog(m.log), m.ahead;
    LogReads(c, m.disk.wal, m.log);
    LoadedProjects(snap, order);
    LoadedClean(snap, order);
    LogCommutes(Loaded(snap, order), m.log);
    PaintReplay(Replay(m.base, log[..n]), log, fill);
    OverlapReplay(m.base, log, n);
    ReplayWellFormed(m.base, log);
    PaintWellFormed(Project(m.live), fill);
  }

  lemma CrashKeepsMachine(c: Codec, m: Machine, order: seq<NodeId>)
    requires Faithful(c) && MachineInv(c, m)
    ensures MachineInv(c, Rebased(m, Restart(c, m.disk, order), Fill(m.disk.snapshot)))
  {
    RestartPaints(c, m, order);
    RebasedInv(c, m, Restart(c, m.disk, order), Fill(m.disk.snapshot));
  }

  lemma RebasedInv(c: Codec, m: Machine, live: State, fill: map<Edge, Role>)
    requires MachineInv(c, m) && Sound(live) && fill == Fill(m.disk.snapshot)
    requires Project(live) == Paint(Project(m.live), fill)
    ensures MachineInv(c, Rebased(m, live, fill))
  {
    PaintedBase(m.base, ProjectLog(m.log), fill);
    StillFits(m.disk.snapshot, m.base, ProjectLog(m.log), m.ahead, fill);
    Resumed(c, m, live, Paint(m.base, fill));
  }

  lemma PaintedBase(base: View, log: seq<Delta>, fill: map<Edge, Role>)
    requires WellFormed(base) && Valid(base, log) && OffBackbone(fill)
    ensures WellFormed(Paint(base, fill)) && Valid(Paint(base, fill), log)
    ensures Replay(Paint(base, fill), log) == Paint(Replay(base, log), fill)
  {
    PaintReplay(base, log, fill);
    PaintWellFormed(base, fill);
  }

  lemma Resumed(c: Codec, m: Machine, live: State, base: View)
    requires MachineInv(c, m) && Sound(live) && WellFormed(base)
    requires Valid(base, ProjectLog(m.log)) && Project(live) == Replay(base, ProjectLog(m.log))
    requires SnapshotFits(m.disk.snapshot, base, ProjectLog(m.log), m.ahead)
    ensures MachineInv(c, m.(live := live, base := base, flush := Idle))
  {
  }

  lemma StillFits(s: State, base: View, log: seq<Delta>, n: nat, fill: map<Edge, Role>)
    requires n <= |log| && fill == Fill(s) && SnapshotFits(s, base, log, n)
    ensures SnapshotFits(s, Paint(base, fill), log, n)
  {
    PaintReplay(base, log[..n], fill);
    PaintTwice(Replay(base, log[..n]), fill);
  }

  lemma EventKeepsMachine(c: Codec, m: Machine, ev: Event)
    requires Faithful(c) && MachineInv(c, m) && CanHappen(c, m, ev)
    ensures MachineInv(c, After(c, m, ev))
  {
    match ev
    case Do(op) => DoKeepsMachine(c, m, op);
    case CopyState => CopyKeepsMachine(c, m);
    case RenameSnapshot =>
    case TruncateWal => TruncateKeepsMachine(c, m);
    case Crash(order) => CrashKeepsMachine(c, m, order);
  }

  /** No member that the snapshot lists on a network without roles is still there without one. */
  ghost predicate NothingMadeUp(snapshot: State, live: State) {
    forall k, n :: Lists(snapshot, k, n) && Roleless(k, snapshot.networks[k]) && Lists(live, k, n) ==>
      n in live.networks[k].roles
  }

  lemma MadeUpAt(snapshot: State, live: State, v: View, fill: map<Edge, Role>, n: NodeId, k: NetId)
    requires FillsAt(snapshot, fill, n, k) && EdgeMatches(live, v, n, k)
    ensures (n, k) in v.lists && (n, k) in fill <==>
            Lists(snapshot, k, n) && Roleless(k, snapshot.networks[k]) && Lists(live, k, n)
    ensures Lists(live, k, n) && (n, k) in v.lists && (n, k) in fill ==>
            (v.lists[(n, k)] != None <==> n in live.networks[k].roles)
  {
  }

  lemma MadeUpExactly(snapshot: State, live: State)
    ensures Paint(Project(live), Fill(snapshot)) == Project(live) <==> NothingMadeUp(snapshot, live)
  {
    ProjectMatches(live);
    MadeUp(snapshot, live, Project(live), Fill(snapshot));
  }

  lemma MadeUp(snapshot: State, live: State, v: View, fill: map<Edge, Role>)
    requires Matches(live, v) && fill == Fill(snapshot)
    ensures Paint(v, fill) == v <==> NothingMadeUp(snapshot, live)
  {
    PaintExactly(v, fill);
    if Paint(v, fill) == v {
      forall k: NetId, n: NodeId | Lists(snapshot, k, n) && Roleless(k, snapshot.networks[k]) && Lists(live, k, n)
        ensures n in live.networks[k].roles
      {
        MadeUpSeen(snapshot, live, v, fill, n, k);
      }
    } else {
      var e :| e in v.lists && e in fill && v.lists[e] == None;
      MadeUpSeen(snapshot, live, v, fill, e.0, e.1);
    }
  }

  lemma MadeUpSeen(snapshot: State, live: State, v: View, fill: map<Edge, Role>, n: NodeId, k: NetId)
    requires Matches(live, v) && fill == Fill(snapshot)
    ensures (n, k) in v.lists && (n, k) in fill <==>
            Lists(snapshot, k, n) && Roleless(k, snapshot.networks[k]) && Lists(live, k, n)
    ensures Lists(live, k, n) && (n, k) in v.lists && (n, k) in fill ==>
            (v.lists[(n, k)] != None <==> n in live.networks[k].roles)
  {
    FillAt(snapshot, n, k);
    assert EdgeMatches(live, v, n, k);
    MadeUpAt(snapshot, live, v, fill, n, k);
  }

  /** A crash at any moment, with every completed append on disk: nodes, keys, memberships and
      counters come back, and roles too if and only if the snapshot has no network without
      roles whose members still have none. */
  lemma CrashRecovers(c: Codec, m: Machine, order: seq<NodeId>)
    requires Faithful(c) && MachineInv(c, m)
    ensures Project(Restart(c, m.disk, order)) == Paint(Project(m.live), Fill(m.disk.snapshot))
    ensures Project(Restart(c, m.disk, order)) == Project(m.live) <==> NothingMadeUp(m.disk.snapshot, m.live)
    ensures Sound(Restart(c, m.disk, order))
  {
    RestartPaints(c, m, order);
    MadeUpExactly(m.disk.snapshot, m.live);
  }

  lemma TornTail(entries: seq<bytes>, e: bytes, wal: bytes, cut: nat)
    requires forall i :: 0 <= i < |entries| ==> |entries[i]| <= MAX_ENTRY
    requires Writable(entries) && wal == Contents(entries)
    requires |e| <= MAX_ENTRY && |wal| <= cut < |wal| + 4 + |e|
    ensures Read((wal + Frame(e))[..cut]).entries == Read(wal).entries
  {
    var torn := Frame(e)[..cut - |wal|];
    assert (wal + Frame(e))[..cut] == wal + torn;
    ReadTorn(e, cut - |wal|);
    ReadRecords(entries, torn);
    ReadRecords(entries, []);
    assert wal + [] == wal;
  }

  lemma RestartReads(c: Codec, a: Disk, b: Disk, order: seq<NodeId>)
    requires a.snapshot == b.snapshot && Read(a.wal).entries == Read(b.wal).entries
    ensures Restart(c, a, order) == Restart(c, b, order)
  {
  }

  /** What is on disk when the append of `op` is torn at byte `cut`. */
  ghost function TornDisk(c: Codec, m: Machine, op: Op, cut: nat): Disk
    requires 0 in m.live.networks && CanHappen(c, m, Do(op)) && cut <= |Perform(c, m, op).disk.wal|
  {
    var d := Perform(c, m, op).disk;
    d.(wal := d.wal[..cut])
  }

  /** A crash that tears the record being appended recovers what a crash before that step would. */
  lemma TornAppendRecovers(c: Codec, m: Machine, op: Op, cut: nat, order: seq<NodeId>)
    requires Faithful(c) && MachineInv(c, m) && CanHappen(c, m, Do(op)) && Recorded(m.live, op).Some?
    requires |m.disk.wal| <= cut < |Perform(c, m, op).disk.wal|
    ensures Restart(c, TornDisk(c, m, op, cut), order) == Restart(c, m.disk, order)
  {
    var data := c.enc(Recorded(m.live, op).value);
    var d := Perform(c, m, op).disk;
    assert d == m.disk.(wal := m.disk.wal + Frame(data));
    TornTail(Encode(c, m.log), data, m.disk.wal, cut);
    RestartReads(c, TornDisk(c, m, op, cut), m.disk, order);
  }

  /** Truncating although something was recorded since the copy loses exactly that: a crash
      right after it comes back with the copied state. */
  lemma WindowIsLost(c: Codec, m: Machine, order: seq<NodeId>)
    requires Faithful(c) && MachineInv(c, m) && m.flush.Renamed?
    ensures Project(Restart(c, m.disk.(wal := []), order))
            == Paint(Replay(m.base, ProjectLog(m.log)[..m.ahead]), Fill(m.disk.snapshot))
  {
    assert Read([]).entries == [] && Decode(c, []) == [];
    LoadedProjects(m.disk.snapshot, order);
  }

  // --- whole runs ----------------------------------------------------------------------------------

  ghost predicate Happens(c: Codec, m: Machine, evs: seq<Event>)
    decreases |evs|
  {
    0 in m.live.networks && (evs == [] || (CanHappen(c, m, evs[0]) && Happens(c, After(c, m, evs[0]), evs[1..])))
  }

  ghost function RunMachine(c: Codec, m: Machine, evs: seq<Event>): Machine
    requires Happens(c, m, evs)
    decreases |evs|
  {
    if evs == [] then m else RunMachine(c, After(c, m, evs[0]), evs[1..])
  }

  lemma {:induction false} RunKeepsMachine(c: Codec, m: Machine, evs: seq<Event>)
    requires Faithful(c) && MachineInv(c, m) && Happens(c, m, evs)
    ensures MachineInv(c, RunMachine(c, m, evs))
    decreases |evs|
  {
    if evs != [] {
      EventKeepsMachine(c, m, evs[0]);
      RunKeepsMachine(c, After(c, m, evs[0]), evs[1..]);
    }
  }

  /** The machine right after a start that loaded a snapshot of `s` and found an empty log. */
  ghost function Started(s: State, order: seq<NodeId>): Machine {
    Machine(Loaded(s, order), Disk(s, []), Project(Loaded(s, order)), [], 0, Idle)
  }

  lemma StartedInv(c: Codec, s: State, order: seq<NodeId>)
    requires Sound(s)
    ensures MachineInv(c, Started(s, order))
  {
    assert Contents(Encode(c, [])) == [];
    LoadedProjects(s, order);
    LoadedClean(s, order);
    PaintWellFormed(Project(s), Fill(s));
    PaintTwice(Project(s), Fill(s));
    assert ProjectLog([])[..0] == [];
  }

  /** Recovery: after any run of covered steps, flushes and earlier crashes from a loaded
      snapshot, a crash recovers the live state, roles included exactly when loading makes
      none up; if it tears the append of one more step, it recovers the same. */
  lemma RecoveryTheorem(c: Codec, s: State, order: seq<NodeId>, evs: seq<Event>, again: seq<NodeId>)
    requires Faithful(c) && Sound(s) && Happens(c, Started(s, order), evs)
    ensures var m := RunMachine(c, Started(s, order), evs);
            var r := Restart(c, m.disk, again);
            && 0 in m.live.networks && Sound(r)
            && Project(r) == Paint(Project(m.live), Fill(m.disk.snapshot))
            && (Project(r) == Project(m.live) <==> NothingMadeUp(m.disk.snapshot, m.live))
            && forall op, cut: nat ::
                 CanHappen(c, m, Do(op)) && Recorded(m.live, op).Some?
                 && |m.disk.wal| <= cut < |Perform(c, m, op).disk.wal| ==>
                 Restart(c, TornDisk(c, m, op, cut), again) == r
  {
    StartedInv(c, s, order);
    RunKeepsMachine(c, Started(s, order), evs);
    var m := RunMachine(c, Started(s, order), evs);
    CrashRecovers(c, m, again);
    forall op, cut: nat | CanHappen(c, m, Do(op)) && Recorded(m.live, op).Some?
                          && |m.disk.wal| <= cut < |Perform(c, m, op).disk.wal|
      ensures Restart(c, TornDisk(c, m, op, cut), again) == Restart(c, m.disk, again)
    {
      TornAppendRecovers(c, m, op, cut, again);
    }
  }
}
