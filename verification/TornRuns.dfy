/** Runs that go on after a crash tore a record: the torn bytes stay in the log until the next
    flush truncates it, and only then does the log cover what was done since. */
module TornRuns {
  import opened Options
  import opened Registry
  import opened DeltaReplay
  import opened WalFile
  import opened Loading
  import opened Recovery

  /** `Torn` is a server that restarted over a torn record: `origin` is the machine before that
      crash, `quiet` says nothing was recorded since the copy of the flush under way. */
  datatype Server =
    | Intact(m: Machine)
    | Torn(origin: Machine, live: State, disk: Disk, flush: Flush, quiet: bool)

  datatype Happening = Usual(ev: Event) | Tear(op: Op, cut: nat, order: seq<NodeId>)

  function Live(s: Server): State {
    match s
    case Intact(m) => m.live
    case Torn(_, live, _, _, _) => live
  }

  /** The append of `op` can be torn at byte `cut`. */
  ghost predicate Tears(c: Codec, m: Machine, op: Op, cut: nat)
    requires 0 in m.live.networks
  {
    && CanHappen(c, m, Do(op)) && Recorded(m.live, op).Some?
    && |m.disk.wal| <= cut < |Perform(c, m, op).disk.wal|
  }

  /** Replay still finds what it found before the tear. */
  ghost predicate Unread(origin: Disk, disk: Disk) {
    disk.snapshot == origin.snapshot && Read(disk.wal).entries == Read(origin.wal).entries
  }

  ghost predicate Fits(c: Codec, disk: Disk, e: Option<Entry>) {
    e.Some? ==> |c.enc(e.value)| <= MAX_ENTRY && 4 + |c.enc(e.value)| + |disk.wal| <= MAX_WAL
  }

  ghost function Appended(c: Codec, disk: Disk, e: Option<Entry>): Disk
    requires Fits(c, disk, e)
  {
    if e.None? then disk else disk.(wal := disk.wal + Frame(c.enc(e.value)))
  }

  /** At most one tear between flushes; a crash over the torn record is followed as long as
      replay does not reach what was appended behind it. */
  ghost predicate Allowed(c: Codec, s: Server, h: Happening) {
    && 0 in Live(s).networks
    && match s
       case Intact(m) => (match h case Usual(ev) => CanHappen(c, m, ev) case Tear(op, cut, _) => Tears(c, m, op, cut))
       case Torn(origin, live, disk, flush, quiet) =>
         h.Usual? &&
         match h.ev
         case Do(op) =>
           Enabled(live, op) && Covered(live, op) && Fits(c, disk, Recorded(live, op))
         case CopyState => flush.Idle?
         case RenameSnapshot => flush.Copied?
         case TruncateWal => flush.Renamed? && quiet
         case Crash(_) => Unread(origin.disk, disk)
  }

  ghost function AfterTorn(c: Codec, s: Server, ev: Event): Server
    requires s.Torn? && Allowed(c, s, Usual(ev))
  {
    match ev
    case Do(op) =>
      s.(live := Apply(s.live, op), disk := Appended(c, s.disk, Recorded(s.live, op)),
         quiet := s.quiet && Recorded(s.live, op).None?)
    case CopyState => s.(flush := Copied(s.live, 0), quiet := true)
    case RenameSnapshot => s.(disk := s.disk.(snapshot := s.flush.state), flush := Renamed)
    case TruncateWal => Intact(Machine(s.live, Disk(s.disk.snapshot, []), Project(s.live), [], 0, Idle))
    case Crash(order) => s.(live := Restart(c, s.disk, order), flush := Idle)
  }

  ghost function Then(c: Codec, s: Server, h: Happening): Server
    requires Allowed(c, s, h)
  {
    match h
    case Usual(ev) => if s.Intact? then Intact(After(c, s.m, ev)) else AfterTorn(c, s, ev)
    case Tear(op, cut, order) =>
      Torn(s.m, Restart(c, TornDisk(c, s.m, op, cut), order), TornDisk(c, s.m, op, cut), Idle, true)
  }

  // --- the invariant -----------------------------------------------------------------------------

  /** A state a flush copied: what is live projects to it unless something was recorded since. */
  ghost predicate CopyOk(copy: State, live: State, quiet: bool) {
    Clean(copy) && 0 in copy.networks && (quiet ==> Project(copy) == Project(live))
  }

  ghost predicate ServerInv(c: Codec, s: Server) {
    match s
    case Intact(m) => MachineInv(c, m)
    case Torn(origin, live, disk, flush, quiet) =>
      && MachineInv(c, origin) && Sound(live)
      && (flush.Copied? ==> CopyOk(flush.state, live, quiet))
      && (flush.Renamed? ==> CopyOk(disk.snapshot, live, quiet))
  }

  lemma TearKeeps(c: Codec, m: Machine, op: Op, cut: nat, order: seq<NodeId>)
    requires Faithful(c) && MachineInv(c, m) && Tears(c, m, op, cut)
    ensures Unread(m.disk, TornDisk(c, m, op, cut))
    ensures Restart(c, TornDisk(c, m, op, cut), order) == Restart(c, m.disk, order)
    ensures Sound(Restart(c, TornDisk(c, m, op, cut), order))
  {
    var data := c.enc(Recorded(m.live, op).value);
    assert Perform(c, m, op).disk == m.disk.(wal := m.disk.wal + Frame(data));
    TornTail(Encode(c, m.log), data, m.disk.wal, cut);
    TornAppendRecovers(c, m, op, cut, order);
    RestartPaints(c, m, order);
  }

  /** A completed flush brings the machine back, whatever the log held. */
  lemma FlushRestores(c: Codec, live: State, snapshot: State)
    requires Sound(live) && CopyOk(snapshot, live, true)
    ensures MachineInv(c, Machine(live, Disk(snapshot, []), Project(live), [], 0, Idle))
  {
    assert Contents(Encode(c, [])) == [];
    assert ProjectLog([])[..0] == [];
  }

  lemma TornDo(c: Codec, s: Server, op: Op)
    requires s.Torn? && ServerInv(c, s) && Allowed(c, s, Usual(Do(op)))
    ensures ServerInv(c, AfterTorn(c, s, Do(op)))
  {
    DoKeepsLive(s.live, op);
  }

  lemma TornKeeps(c: Codec, s: Server, ev: Event)
    requires Faithful(c) && s.Torn? && ServerInv(c, s) && Allowed(c, s, Usual(ev))
    ensures ServerInv(c, AfterTorn(c, s, ev))
  {
    match ev
    case Do(op) => TornDo(c, s, op);
    case CopyState =>
    case RenameSnapshot =>
    case TruncateWal => FlushRestores(c, s.live, s.disk.snapshot);
    case Crash(order) =>
      RestartPaints(c, s.origin, order);
      RestartReads(c, s.disk, s.origin.disk, order);
  }

  lemma HappeningKeeps(c: Codec, s: Server, h: Happening)
    requires Faithful(c) && ServerInv(c, s) && Allowed(c, s, h)
    ensures ServerInv(c, Then(c, s, h))
  {
    match h
    case Usual(ev) =>
      if s.Intact? {
        EventKeepsMachine(c, s.m, ev);
      } else {
        TornKeeps(c, s, ev);
      }
    case Tear(op, cut, order) => TearKeeps(c, s.m, op, cut, order);
  }

  // --- whole runs ----------------------------------------------------------------------------------

  ghost predicate Occurs(c: Codec, s: Server, hs: seq<Happening>)
    decreases |hs|
  {
    hs == [] || (Allowed(c, s, hs[0]) && Occurs(c, Then(c, s, hs[0]), hs[1..]))
  }

  ghost function RunServer(c: Codec, s: Server, hs: seq<Happening>): Server
    requires Occurs(c, s, hs)
    decreases |hs|
  {
    if hs == [] then s else RunServer(c, Then(c, s, hs[0]), hs[1..])
  }

  lemma {:induction false} RunKeepsServer(c: Codec, s: Server, hs: seq<Happening>)
    requires Faithful(c) && ServerInv(c, s) && Occurs(c, s, hs)
    ensures ServerInv(c, RunServer(c, s, hs))
    decreases |hs|
  {
    if hs != [] {
      HappeningKeeps(c, s, hs[0]);
      RunKeepsServer(c, Then(c, s, hs[0]), hs[1..]);
    }
  }

  /** After any run of operations, flushes, crashes and tears with a flush between any two
      tears: once the flush after the last tear has ended, a crash recovers the live state as
      ever; until then it recovers what the tear left, as long as replay does not reach beyond. */
  lemma TornRunsRecover(c: Codec, s: State, order: seq<NodeId>, hs: seq<Happening>, again: seq<NodeId>)
    requires Faithful(c) && Sound(s) && Occurs(c, Intact(Started(s, order)), hs)
    ensures var e := RunServer(c, Intact(Started(s, order)), hs);
            && (e.Intact? ==>
                  var r := Restart(c, e.m.disk, again);
                  && Sound(r) && Project(r) == Paint(Project(e.m.live), Fill(e.m.disk.snapshot))
                  && (Project(r) == Project(e.m.live) <==> NothingMadeUp(e.m.disk.snapshot, e.m.live)))
            && (e.Torn? && Unread(e.origin.disk, e.disk) ==>
                  Restart(c, e.disk, again) == Restart(c, e.origin.disk, again))
  {
    StartedInv(c, s, order);
    RunKeepsServer(c, Intact(Started(s, order)), hs);
    var e := RunServer(c, Intact(Started(s, order)), hs);
    if e.Intact? {
      RestartPaints(c, e.m, again);
      CrashRecovers(c, e.m, again);
    } else if Unread(e.origin.disk, e.disk) {
      RestartReads(c, e.disk, e.origin.disk, again);
    }
  }

  lemma LaterIsHidden(entries: seq<bytes>, e: bytes, wal: bytes, cut: nat, later: bytes)
    requires forall i :: 0 <= i < |entries| ==> |entries[i]| <= MAX_ENTRY
    requires Writable(entries) && wal == Contents(entries) && |e| <= MAX_ENTRY
    requires |wal| + 4 <= cut && cut + |later| < |wal| + 4 + |e|
    ensures Read((wal + Frame(e))[..cut] + later).entries == entries == Read(wal).entries
  {
    assert (wal + Frame(e))[..cut] == wal + Frame(e)[..cut - |wal|];
    TornTailHidesAppends(entries, e, cut - |wal|, later);
    ReadRecords(entries, []);
    assert wal + [] == wal;
  }

  /** Replay does not reach what was appended behind the torn record while that is shorter than
      what the record announced: everything done since the tear is lost in another crash. */
  lemma DoneSinceIsLost(c: Codec, m: Machine, op: Op, cut: nat, later: bytes, order: seq<NodeId>)
    requires Faithful(c) && MachineInv(c, m) && Tears(c, m, op, cut)
    requires |m.disk.wal| + 4 <= cut && cut + |later| < |Perform(c, m, op).disk.wal|
    ensures var d := TornDisk(c, m, op, cut);
            Restart(c, d.(wal := d.wal + later), order) == Restart(c, m.disk, order)
  {
    var data, d := c.enc(Recorded(m.live, op).value), TornDisk(c, m, op, cut);
    assert Perform(c, m, op).disk == m.disk.(wal := m.disk.wal + Frame(data));
    LaterIsHidden(Encode(c, m.log), data, m.disk.wal, cut, later);
    RestartReads(c, d.(wal := d.wal + later), m.disk, order);
  }
}
