/** What a restart brings back of nodes and networks beyond keys and memberships: the terms of
    every network, and each node as the snapshot or its registration has it. */
module RecoveredTerms {
  import opened Registry
  import opened Overlap
  import opened DeltaReplay
  import opened Loading
  import opened Recovery
  import opened ReplayLaws
  import WalFile

  // --- nodes --------------------------------------------------------------------------------------------

  /** Owner, hostname, last-seen time, endpoint and signature flag. */
  predicate SameDetails(a: Node, b: Node) {
    && a.owner == b.owner && a.hostname == b.hostname && a.lastSeen == b.lastSeen
    && a.endpoint == b.endpoint && a.sigVerified == b.sigVerified
  }

  /** The entry registers node `id` with the details `n` has. */
  predicate BroughtBy(e: Entry, id: NodeId, n: Node) {
    && e.RegisterEntry? && e.id == id
    && n.owner == e.owner && n.hostname == e.hostname && n.lastSeen == e.at && !n.sigVerified
    && n.endpoint == Endpoint(e.endpoint.addr, e.endpoint.lan, e.endpoint.version, false)
  }

  lemma {:induction false} NodeOrigin(s: State, log: seq<Entry>, n: NodeId)
    requires n in ApplyLog(s, log).nodes && DeregisterEntry(n) !in log
    ensures n in s.nodes ==> SameDetails(s.nodes[n], ApplyLog(s, log).nodes[n])
    ensures n !in s.nodes ==> exists e :: e in log && BroughtBy(e, n, ApplyLog(s, log).nodes[n])
    decreases |log|
  {
    if log != [] && !Malformed(log[0]) {
      var t := ApplyEntry(s, log[0]);
      EntryNodesExactly(s, log[0], n);
      NodeOrigin(t, log[1..], n);
      if n !in t.nodes {
        var e :| e in log[1..] && BroughtBy(e, n, ApplyLog(s, log).nodes[n]);
        assert e in log;
      } else if n !in s.nodes {
        assert BroughtBy(log[0], n, ApplyLog(s, log).nodes[n]);
      }
    }
  }

  /** A node that is there at the end of a log has not left during it: ids do not come back. */
  lemma {:induction false} NeverLeft(v: View, log: seq<Delta>, n: NodeId)
    requires WellFormed(v) && Valid(v, log) && n in Replay(v, log).nodes
    ensures DDeregister(n) !in log
    decreases |log|
  {
    if log != [] {
      var w := Step(v, log[0]);
      StepWellFormed(v, log[0]);
      ReplayStaysGone(w, log[1..]);
      NeverLeft(w, log[1..], n);
    }
  }

  lemma {:induction false} ProjectedIn(log: seq<Entry>, n: NodeId)
    requires (forall i :: 0 <= i < |log| ==> WellMade(log[i])) && DeregisterEntry(n) in log
    ensures DDeregister(n) in ProjectLog(log)
    decreases |log|
  {
    if log[0] != DeregisterEntry(n) { ProjectedIn(log[1..], n); }
  }

  lemma LiveNeverLeft(c: Codec, m: Machine, n: NodeId)
    requires MachineInv(c, m) && n in m.live.nodes
    ensures DeregisterEntry(n) !in m.log
  {
    ProjectMatches(m.live);
    assert NodeMatches(m.live, Project(m.live), n);
    NeverLeft(m.base, ProjectLog(m.log), n);
    if DeregisterEntry(n) in m.log { ProjectedIn(m.log, n); }
  }

  lemma LiveComesBack(c: Codec, m: Machine, order: seq<NodeId>, n: NodeId)
    requires Faithful(c) && MachineInv(c, m) && n in m.live.nodes
    ensures n in Restart(c, m.disk, order).nodes
  {
    var t := Restart(c, m.disk, order);
    RestartPaints(c, m, order);
    ProjectMatches(m.live);
    ProjectMatches(t);
    assert NodeMatches(m.live, Project(m.live), n) && NodeMatches(t, Project(t), n);
  }

  /** A live node comes back with the details the snapshot has of it, unsigned; or, if the
      snapshot does not have it, with those of its registration, and then never relay-only. */
  lemma RecoveredDetails(c: Codec, m: Machine, order: seq<NodeId>, n: NodeId)
    requires Faithful(c) && MachineInv(c, m) && n in m.live.nodes
    ensures n in Restart(c, m.disk, order).nodes
    ensures var snapshot, back := m.disk.snapshot, Restart(c, m.disk, order).nodes[n];
            && (n in snapshot.nodes ==> SameDetails(back, snapshot.nodes[n].(sigVerified := false)))
            && (n !in snapshot.nodes ==> exists e :: e in m.log && BroughtBy(e, n, back))
  {
    LiveComesBack(c, m, order, n);
    LiveNeverLeft(c, m, n);
    LogReads(c, m.disk.wal, m.log);
    NodeOrigin(Loaded(m.disk.snapshot, order), m.log, n);
  }

  // --- networks ------------------------------------------------------------------------------------------

  /** The book has the terms of every network of `s`. */
  ghost predicate Agrees(s: State, book: map<NetId, Network>) {
    forall k :: k in s.networks ==> k in book && SameTerms(s.networks[k], book[k])
  }

  ghost predicate LogAgrees(log: seq<Entry>, book: map<NetId, Network>) {
    forall e :: e in log && e.CreateEntry? ==> e.net in book && TermsEntered(e, book[e.net])
  }

  /** Memory, disk, the copy being saved and the log agree on the terms of every network there
      has been, and a new network gets a number that is not in the book. */
  ghost predicate BookInv(m: Machine, book: map<NetId, Network>) {
    && Agrees(m.live, book) && Agrees(m.disk.snapshot, book) && (m.flush.Copied? ==> Agrees(m.flush.state, book))
    && LogAgrees(m.log, book) && (forall k :: k in book ==> k < m.live.nextNet)
  }

  lemma EntryAgrees(s: State, e: Entry, book: map<NetId, Network>)
    requires Agrees(s, book) && (e.CreateEntry? ==> e.net in book && TermsEntered(e, book[e.net]))
    ensures Agrees(ApplyEntry(s, e), book)
  {
    forall k | k in ApplyEntry(s, e).networks ensures k in book && SameTerms(ApplyEntry(s, e).networks[k], book[k]) {
      EntryNetworksExactly(s, e, k);
    }
  }

  lemma {:induction false} LogAgreesOn(s: State, log: seq<Entry>, book: map<NetId, Network>)
    requires Agrees(s, book) && LogAgrees(log, book)
    ensures Agrees(ApplyLog(s, log), book)
    decreases |log|
  {
    if log != [] && !Malformed(log[0]) {
      EntryAgrees(s, log[0], book);
      LogAgreesOn(ApplyEntry(s, log[0]), log[1..], book);
    }
  }

  lemma LoadedAgrees(s: State, order: seq<NodeId>, book: map<NetId, Network>)
    requires Agrees(s, book)
    ensures Agrees(Loaded(s, order), book)
  {
    forall k | k in s.networks ensures SameTerms(Loaded(s, order).networks[k], s.networks[k]) {}
  }

  lemma RestartAgrees(c: Codec, m: Machine, order: seq<NodeId>, book: map<NetId, Network>)
    requires Faithful(c) && MachineInv(c, m) && BookInv(m, book)
    ensures Agrees(Restart(c, m.disk, order), book)
  {
    LogReads(c, m.disk.wal, m.log);
    LoadedAgrees(m.disk.snapshot, order, book);
    LogAgreesOn(Loaded(m.disk.snapshot, order), m.log, book);
  }

  /** The book after an entry is recorded. */
  ghost function Booked(book: map<NetId, Network>, e: Entry): map<NetId, Network> {
    if e.CreateEntry? then book[e.net := CreatedNetwork(e)] else book
  }

  lemma BookedAgrees(s: State, book: map<NetId, Network>, e: Entry)
    requires Agrees(s, book) && (e.CreateEntry? ==> e.net !in book)
    ensures Agrees(s, Booked(book, e)) && Agrees(ApplyEntry(s, e), Booked(book, e))
  {
    EntryAgrees(s, e, Booked(book, e));
  }

  lemma BookedLog(log: seq<Entry>, book: map<NetId, Network>, e: Entry)
    requires LogAgrees(log, book) && (e.CreateEntry? ==> e.net !in book)
    ensures LogAgrees(log + [e], Booked(book, e))
  {
  }

  /** A recorded creation takes the next number, and none of the covered steps lowers it. */
  lemma RecordedNumbers(s: State, op: Op)
    requires Sound(s) && Covered(s, op)
    ensures var e, t := Recorded(s, op), Apply(s, op);
            && (e.Some? && e.value.CreateEntry? ==> e.value.net == s.nextNet && t.nextNet == s.nextNet + 1)
            && (!(e.Some? && e.value.CreateEntry?) ==> t.nextNet == s.nextNet)
  {
    StepCore(s, op);
    if Recorded(s, op).Some? {
      var e := Recorded(s, op).value;
      EntryNumbers(s, e);
      if e.CreateEntry? { CreationStep(s, op); }
    }
  }

  lemma EntryNumbers(s: State, e: Entry)
    ensures ApplyEntry(s, e).nextNet ==
            if e.CreateEntry? && e.net !in s.networks && s.nextNet <= e.net then (e.net + 1) % NET_LIMIT else s.nextNet
  {
    match e
    case CreateEntry(_, _, _, _, _, _) =>
    case RegisterEntry(_, _, _, _, _, _) => RegisterNumber(s, e);
    case DeregisterEntry(_) =>
    case JoinEntry(_, _) =>
    case LeaveEntry(_, _) =>
    case _ =>
  }

  lemma RegisterNumber(s: State, e: Entry)
    requires e.RegisterEntry?
    ensures ApplyRegister(s, e).nextNet == s.nextNet
  {
  }

  lemma CreationStep(s: State, op: Op)
    requires 0 in s.networks && Recorded(s, op).Some? && Recorded(s, op).value.CreateEntry?
    ensures Recorded(s, op).value.net == s.nextNet && s.nextNet !in s.networks
  {
    assert op.NetworkStep?;
    CreationNumber(s, op.networkOp);
  }

  lemma CreationNumber(s: State, op: NetworkOp)
    requires RecordedNetwork(s, op).Some? && RecordedNetwork(s, op).value.CreateEntry?
    ensures RecordedNetwork(s, op).value.net == s.nextNet && s.nextNet !in s.networks
  {
  }

  lemma PerformKeepsBook(c: Codec, m: Machine, op: Op, book: map<NetId, Network>) returns (after: map<NetId, Network>)
    requires MachineInv(c, m) && BookInv(m, book) && CanHappen(c, m, Do(op))
    ensures BookInv(Perform(c, m, op), after)
  {
    StepCore(m.live, op);
    RecordedNumbers(m.live, op);
    var live := Apply(m.live, op);
    match Recorded(m.live, op)
    case None => after := book;
    case Some(e) =>
      after := Booked(book, e);
      RecordKeepsBook(m, live, Perform(c, m, op).disk, book, e);
  }

  lemma RecordKeepsBook(m: Machine, live: State, disk: Disk, book: map<NetId, Network>, e: Entry)
    requires BookInv(m, book) && live.networks == ApplyEntry(m.live, e).networks && disk.snapshot == m.disk.snapshot
    requires e.CreateEntry? ==> e.net == m.live.nextNet && live.nextNet == m.live.nextNet + 1
    requires !e.CreateEntry? ==> live.nextNet == m.live.nextNet
    ensures BookInv(m.(live := live, log := m.log + [e], disk := disk), Booked(book, e))
  {
    BookedAgrees(m.live, book, e);
    BookedAgrees(m.disk.snapshot, book, e);
    if m.flush.Copied? { BookedAgrees(m.flush.state, book, e); }
    BookedLog(m.log, book, e);
  }

  lemma EventKeepsBook(c: Codec, m: Machine, ev: Event, book: map<NetId, Network>) returns (after: map<NetId, Network>)
    requires Faithful(c) && MachineInv(c, m) && BookInv(m, book) && CanHappen(c, m, ev)
    ensures BookInv(After(c, m, ev), after)
  {
    after := book;
    match ev
    case Do(op) => after := PerformKeepsBook(c, m, op, book);
    case CopyState =>
    case RenameSnapshot =>
    case TruncateWal =>
    case Crash(order) =>
      RestartAgrees(c, m, order, book);
      RestartPaints(c, m, order);
  }

  lemma {:induction false} RunKeepsBook(c: Codec, m: Machine, evs: seq<Event>, book: map<NetId, Network>)
    returns (after: map<NetId, Network>)
    requires Faithful(c) && MachineInv(c, m) && BookInv(m, book) && Happens(c, m, evs)
    ensures BookInv(RunMachine(c, m, evs), after)
    decreases |evs|
  {
    after := book;
    if evs != [] {
      after := EventKeepsBook(c, m, evs[0], book);
      EventKeepsMachine(c, m, evs[0]);
      after := RunKeepsBook(c, After(c, m, evs[0]), evs[1..], after);
    }
  }

  lemma SameNetworks(c: Codec, m: Machine, order: seq<NodeId>)
    requires Faithful(c) && MachineInv(c, m)
    ensures Restart(c, m.disk, order).networks.Keys == m.live.networks.Keys
  {
    RestartPaints(c, m, order);
    ProjectMatches(m.live);
    ProjectMatches(Restart(c, m.disk, order));
  }

  /** After any run of covered steps, flushes and crashes, a restart brings back every network
      with the name, join rule, token, policy and size limit it has, and no other network. */
  lemma RecoveredNetworks(c: Codec, s: State, order: seq<NodeId>, evs: seq<Event>, again: seq<NodeId>)
    requires Faithful(c) && Sound(s) && Happens(c, Started(s, order), evs)
    ensures var m := RunMachine(c, Started(s, order), evs);
            var t := Restart(c, m.disk, again);
            && t.networks.Keys == m.live.networks.Keys
            && forall k :: k in m.live.networks ==> SameTerms(t.networks[k], m.live.networks[k])
  {
    StartedInv(c, s, order);
    var book := StartedBook(s, order);
    RunKeepsMachine(c, Started(s, order), evs);
    var m := RunMachine(c, Started(s, order), evs);
    book := RunKeepsBook(c, Started(s, order), evs, book);
    BookRecovers(c, m, again, book);
  }

  lemma BookRecovers(c: Codec, m: Machine, order: seq<NodeId>, book: map<NetId, Network>)
    requires Faithful(c) && MachineInv(c, m) && BookInv(m, book)
    ensures var t := Restart(c, m.disk, order);
            && t.networks.Keys == m.live.networks.Keys
            && forall k :: k in m.live.networks ==> SameTerms(t.networks[k], m.live.networks[k])
  {
    SameNetworks(c, m, order);
    RestartAgrees(c, m, order, book);
  }

  lemma StartedBook(s: State, order: seq<NodeId>) returns (book: map<NetId, Network>)
    requires Sound(s)
    ensures BookInv(Started(s, order), book)
  {
    book := s.networks;
    LoadedAgrees(s, order, book);
    ProjectMatches(s);
  }

  // --- invites -------------------------------------------------------------------------------------------

  lemma RegisterKeepsInvites(s: State, e: Entry)
    requires e.RegisterEntry?
    ensures ApplyRegister(s, e).invites == s.invites
  {
  }

  lemma EntryKeepsInvites(s: State, e: Entry)
    ensures ApplyEntry(s, e).invites == s.invites
  {
    match e
    case RegisterEntry(_, _, _, _, _, _) => RegisterKeepsInvites(s, e);
    case CreateEntry(_, _, _, _, _, _) =>
    case DeregisterEntry(_) =>
    case JoinEntry(_, _) =>
    case LeaveEntry(_, _) =>
    case _ =>
  }

  lemma {:induction false} LogKeepsInvites(s: State, log: seq<Entry>)
    ensures ApplyLog(s, log).invites == s.invites
    decreases |log|
  {
    if log != [] && !Malformed(log[0]) {
      EntryKeepsInvites(s, log[0]);
      LogKeepsInvites(ApplyEntry(s, log[0]), log[1..]);
    }
  }

  /** Invites come back as the snapshot has them, whatever the log holds: not even a replayed
      departure or deletion withdraws any. */
  lemma RecoveredInvites(c: Codec, disk: Disk, order: seq<NodeId>, n: NodeId)
    ensures var t := Restart(c, disk, order).invites;
            && (n in t <==> n != 0 && n in disk.snapshot.invites)
            && (n in t ==> t[n] == disk.snapshot.invites[n])
  {
    LogKeepsInvites(Loaded(disk.snapshot, order), Decode(c, WalFile.Read(disk.wal).entries));
  }
}
