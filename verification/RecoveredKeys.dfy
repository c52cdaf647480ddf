/** The key and the owner index after a restart. Loading indexes every live node, but replay
    starts from a snapshot that may already hold later registrations, so an old entry can take
    a key from the node that holds it now, and drop it again. Who can still be found by key is
    told here from who held which key as the log went. */
module RecoveredKeys {
  import opened Options
  import opened Registry
  import opened DeltaReplay
  import opened Loading
  import opened Recovery
  import opened NodeLaws
  import opened ReplayLaws

  // --- an index from tags to the nodes that carry them ------------------------------------------------

  function Holders(tags: map<NodeId, string>, x: string): set<NodeId> {
    set n | n in tags && tags[n] == x
  }

  /** The nodes their own tag does not lead to. */
  function Missing(tags: map<NodeId, string>, idx: map<string, NodeId>): set<NodeId> {
    set n | n in tags && !(tags[n] in idx && idx[tags[n]] == n)
  }

  /** What an entry does to tags and index: a node comes with a tag, goes, or changes its tag. */
  datatype Change = Comes(n: NodeId, x: string) | Goes(n: NodeId) | Turns(n: NodeId, x: string) | Stays

  predicate Fits(tags: map<NodeId, string>, c: Change) {
    match c
    case Comes(n, _) => n !in tags
    case Goes(n) => n in tags
    case Turns(n, _) => n in tags
    case Stays => true
  }

  function TagsAfter(tags: map<NodeId, string>, c: Change): map<NodeId, string> {
    match c
    case Comes(n, x) => tags[n := x]
    case Goes(n) => tags - {n}
    case Turns(n, x) => tags[n := x]
    case Stays => tags
  }

  function IndexAfter(tags: map<NodeId, string>, idx: map<string, NodeId>, c: Change): map<string, NodeId>
    requires Fits(tags, c)
  {
    match c
    case Comes(n, x) => idx[x := n]
    case Goes(n) => idx - {tags[n]}
    case Turns(n, x) => (idx - {tags[n]})[x := n]
    case Stays => idx
  }

  /** Who is lost after a change: whoever was, and everyone else with a tag the change touches. */
  function LostAfter(tags: map<NodeId, string>, c: Change, lost: set<NodeId>): set<NodeId>
    requires Fits(tags, c)
  {
    match c
    case Comes(n, x) => lost + Holders(tags, x)
    case Goes(n) => lost + Holders(tags, tags[n]) - {n}
    case Turns(n, x) => lost + Holders(tags, tags[n]) + Holders(tags, x) - {n}
    case Stays => lost
  }

  lemma ChangeLoses(tags: map<NodeId, string>, idx: map<string, NodeId>, c: Change)
    requires Fits(tags, c)
    ensures Missing(TagsAfter(tags, c), IndexAfter(tags, idx, c)) == LostAfter(tags, c, Missing(tags, idx))
  {
    var after, lost := Missing(TagsAfter(tags, c), IndexAfter(tags, idx, c)), LostAfter(tags, c, Missing(tags, idx));
    forall n: NodeId ensures n in after <==> n in lost { LosesAt(tags, idx, c, n); }
  }

  lemma LosesAt(tags: map<NodeId, string>, idx: map<string, NodeId>, c: Change, n: NodeId)
    requires Fits(tags, c)
    ensures n in Missing(TagsAfter(tags, c), IndexAfter(tags, idx, c)) <==> n in LostAfter(tags, c, Missing(tags, idx))
  {
  }

  // --- keys and owners -----------------------------------------------------------------------------------

  function Keys(s: State): map<NodeId, string> {
    map n | n in s.nodes :: s.nodes[n].key
  }

  /** Nodes without an owner are not in the owner index. */
  function Owners(s: State): map<NodeId, string> {
    map n | n in s.nodes && s.nodes[n].owner != "" :: s.nodes[n].owner
  }

  function KeyChange(s: State, e: Entry): Change {
    match e
    case RegisterEntry(id, key, _, _, _, _) => if id in s.nodes then Stays else Comes(id, key)
    case DeregisterEntry(id) => if id in s.nodes then Goes(id) else Stays
    case RotateEntry(id, key) => if id in s.nodes then Turns(id, key) else Stays
    case _ => Stays
  }

  function OwnerChange(s: State, e: Entry): Change {
    match e
    case RegisterEntry(id, _, owner, _, _, _) => if id in s.nodes || owner == "" then Stays else Comes(id, owner)
    case DeregisterEntry(id) => if id in s.nodes && s.nodes[id].owner != "" then Goes(id) else Stays
    case _ => Stays
  }

  lemma EntryTurnsKeys(s: State, e: Entry)
    ensures Fits(Keys(s), KeyChange(s, e))
    ensures Keys(ApplyEntry(s, e)) == TagsAfter(Keys(s), KeyChange(s, e))
    ensures ApplyEntry(s, e).pubKeyIdx == IndexAfter(Keys(s), s.pubKeyIdx, KeyChange(s, e))
  {
    var t := ApplyEntry(s, e);
    EntryNodesExactly(s, e, 0);
    KeyIndexTurns(s, e, t);
    forall n: NodeId ensures SameTag(Keys(t), TagsAfter(Keys(s), KeyChange(s, e)), n) {
      EntryNodesExactly(s, e, n);
      KeyTurns(s, e, t, n);
    }
    SameTags(Keys(t), TagsAfter(Keys(s), KeyChange(s, e)));
  }

  ghost predicate SameTag(a: map<NodeId, string>, b: map<NodeId, string>, n: NodeId) {
    (n in a <==> n in b) && (n in a && n in b ==> a[n] == b[n])
  }

  lemma SameTags(a: map<NodeId, string>, b: map<NodeId, string>)
    requires forall n: NodeId :: SameTag(a, b, n)
    ensures a == b
  {
    forall n: NodeId ensures n in a <==> n in b ensures n in a && n in b ==> a[n] == b[n] {
      assert SameTag(a, b, n);
    }
  }

  lemma KeyTurns(s: State, e: Entry, t: State, n: NodeId)
    requires NodeReplayed(s, e, t, n)
    ensures SameTag(Keys(t), TagsAfter(Keys(s), KeyChange(s, e)), n)
  {
  }

  lemma KeyIndexTurns(s: State, e: Entry, t: State)
    requires KeyIndexReplayed(s, e, t)
    ensures Fits(Keys(s), KeyChange(s, e)) && t.pubKeyIdx == IndexAfter(Keys(s), s.pubKeyIdx, KeyChange(s, e))
  {
  }

  lemma EntryTurnsOwners(s: State, e: Entry)
    ensures Fits(Owners(s), OwnerChange(s, e))
    ensures Owners(ApplyEntry(s, e)) == TagsAfter(Owners(s), OwnerChange(s, e))
    ensures ApplyEntry(s, e).ownerIdx == IndexAfter(Owners(s), s.ownerIdx, OwnerChange(s, e))
  {
    var t := ApplyEntry(s, e);
    EntryNodesExactly(s, e, 0);
    OwnerIndexTurns(s, e, t);
    forall n: NodeId ensures SameTag(Owners(t), TagsAfter(Owners(s), OwnerChange(s, e)), n) {
      EntryNodesExactly(s, e, n);
      OwnerTurns(s, e, t, n);
    }
    SameTags(Owners(t), TagsAfter(Owners(s), OwnerChange(s, e)));
  }

  lemma OwnerTurns(s: State, e: Entry, t: State, n: NodeId)
    requires NodeReplayed(s, e, t, n)
    ensures SameTag(Owners(t), TagsAfter(Owners(s), OwnerChange(s, e)), n)
  {
  }

  lemma OwnerIndexTurns(s: State, e: Entry, t: State)
    requires OwnerIndexReplayed(s, e, t)
    ensures Fits(Owners(s), OwnerChange(s, e)) && t.ownerIdx == IndexAfter(Owners(s), s.ownerIdx, OwnerChange(s, e))
  {
  }

  // --- one entry -------------------------------------------------------------------------------------------

  /** No other live node holds the key the entry brings. */
  predicate KeyFree(s: State, e: Entry) {
    match e
    case RegisterEntry(id, key, _, _, _, _) => id in s.nodes || forall n :: n in s.nodes ==> s.nodes[n].key != key
    case RotateEntry(id, key) => id in s.nodes ==> forall n :: n in s.nodes && n != id ==> s.nodes[n].key != key
    case _ => true
  }

  /** A replayed entry leaves every live node to be found by its key if and only if no other live
      node holds the key it brings. */
  lemma EntryKeepsKeysExactly(s: State, e: Entry)
    requires KeysIndexed(s)
    ensures KeysIndexed(ApplyEntry(s, e)) <==> KeyFree(s, e)
  {
    IndexedIsNoneMissing(s);
    IndexedIsNoneMissing(ApplyEntry(s, e));
    EntryTurnsKeys(s, e);
    ChangeLoses(Keys(s), s.pubKeyIdx, KeyChange(s, e));
    TouchedIsFree(s, e);
  }

  lemma IndexedIsNoneMissing(s: State)
    ensures KeysIndexed(s) <==> Missing(Keys(s), s.pubKeyIdx) == {}
  {
    if KeysIndexed(s) {
      assert forall n :: n in Missing(Keys(s), s.pubKeyIdx) ==> false;
    } else {
      var n :| n in s.nodes && !(s.nodes[n].key in s.pubKeyIdx && s.pubKeyIdx[s.nodes[n].key] == n);
      assert n in Missing(Keys(s), s.pubKeyIdx);
    }
  }

  lemma TouchedIsFree(s: State, e: Entry)
    requires KeysIndexed(s) && Fits(Keys(s), KeyChange(s, e))
    ensures LostAfter(Keys(s), KeyChange(s, e), {}) == {} <==> KeyFree(s, e)
  {
    var lost := LostAfter(Keys(s), KeyChange(s, e), {});
    if KeyFree(s, e) {
      forall n | n in lost ensures false { TouchedAt(s, e, n); }
    } else {
      var n :| n in s.nodes && s.nodes[n].key == e.key && n != e.id;
      TouchedAt(s, e, n);
    }
  }

  lemma TouchedAt(s: State, e: Entry, n: NodeId)
    requires KeysIndexed(s) && Fits(Keys(s), KeyChange(s, e))
    ensures n in LostAfter(Keys(s), KeyChange(s, e), {}) <==>
            ((e.RegisterEntry? && e.id !in s.nodes) || (e.RotateEntry? && e.id in s.nodes))
            && n in s.nodes && n != e.id && s.nodes[n].key == e.key
  {
  }

  // --- the log --------------------------------------------------------------------------------------------

  /** The live nodes a replay leaves unfindable by key, given those that already are. */
  function LostKeys(s: State, log: seq<Entry>, lost: set<NodeId>): set<NodeId>
    decreases |log|
  {
    if log == [] || Malformed(log[0]) then lost
    else
      EntryTurnsKeys(s, log[0]);
      LostKeys(ApplyEntry(s, log[0]), log[1..], LostAfter(Keys(s), KeyChange(s, log[0]), lost))
  }

  function LostOwners(s: State, log: seq<Entry>, lost: set<NodeId>): set<NodeId>
    decreases |log|
  {
    if log == [] || Malformed(log[0]) then lost
    else
      EntryTurnsOwners(s, log[0]);
      LostOwners(ApplyEntry(s, log[0]), log[1..], LostAfter(Owners(s), OwnerChange(s, log[0]), lost))
  }

  lemma {:induction false} LogLosesKeys(s: State, log: seq<Entry>)
    ensures var t := ApplyLog(s, log); Missing(Keys(t), t.pubKeyIdx) == LostKeys(s, log, Missing(Keys(s), s.pubKeyIdx))
    decreases |log|
  {
    if log != [] && !Malformed(log[0]) {
      EntryTurnsKeys(s, log[0]);
      ChangeLoses(Keys(s), s.pubKeyIdx, KeyChange(s, log[0]));
      LogLosesKeys(ApplyEntry(s, log[0]), log[1..]);
    }
  }

  lemma {:induction false} LogLosesOwners(s: State, log: seq<Entry>)
    ensures var t := ApplyLog(s, log);
            Missing(Owners(t), t.ownerIdx) == LostOwners(s, log, Missing(Owners(s), s.ownerIdx))
    decreases |log|
  {
    if log != [] && !Malformed(log[0]) {
      EntryTurnsOwners(s, log[0]);
      ChangeLoses(Owners(s), s.ownerIdx, OwnerChange(s, log[0]));
      LogLosesOwners(ApplyEntry(s, log[0]), log[1..]);
    }
  }

  // --- loading --------------------------------------------------------------------------------------------

  ghost predicate Distinct(tags: map<NodeId, string>) {
    forall a, b :: a in tags && b in tags && tags[a] == tags[b] ==> a == b
  }

  /** Every key and every owner met so far leads to some node met that has it. */
  ghost predicate LeadsToHolder(ix: Indices, nodes: map<NodeId, Node>, order: seq<NodeId>) {
    && (forall p :: p in ix.keys ==> ix.keys[p] in order && ix.keys[p] in nodes && nodes[ix.keys[p]].key == p)
    && (forall o :: o in ix.owners ==> ix.owners[o] in order && ix.owners[o] in nodes && nodes[ix.owners[o]].owner == o)
    && (forall n :: n in order && n in nodes ==> nodes[n].key in ix.keys)
    && (forall n :: n in order && n in nodes && nodes[n].owner != "" ==> nodes[n].owner in ix.owners)
    && "" !in ix.owners
  }

  lemma {:induction false} IndexedHolders(nodes: map<NodeId, Node>, order: seq<NodeId>)
    ensures LeadsToHolder(IndexNodes(nodes, order), nodes, order)
  {
    if order != [] {
      var i := |order| - 1;
      assert order == order[..i] + [order[i]];
      IndexedHolders(nodes, order[..i]);
    }
  }

  lemma {:induction false} LoadedTags(s: State, order: seq<NodeId>)
    ensures Keys(Loaded(s, order)) == Keys(s) && Owners(Loaded(s, order)) == Owners(s)
  {
    var t := Loaded(s, order);
    assert forall n :: n in s.nodes ==> t.nodes[n] == s.nodes[n].(sigVerified := false);
  }

  /** Loading leaves every live node to be found by its key if and only if no two share one,
      whatever the order of the range. */
  lemma LoadedKeysExactly(s: State, order: seq<NodeId>)
    requires Ranges(order, s.nodes)
    ensures KeysIndexed(Loaded(s, order)) <==> Distinct(Keys(s))
  {
    var t, ix := Loaded(s, order), IndexNodes(s.nodes, order);
    IndexedHolders(s.nodes, order);
    LoadedTags(s, order);
    if KeysIndexed(t) {
      forall a, b | a in Keys(s) && b in Keys(s) && Keys(s)[a] == Keys(s)[b] ensures a == b {
        assert a in t.nodes && b in t.nodes;
      }
    } else {
      var n :| n in t.nodes && !(t.nodes[n].key in t.pubKeyIdx && t.pubKeyIdx[t.nodes[n].key] == n);
      assert n in order && s.nodes[n].key in ix.keys;
      var m := ix.keys[s.nodes[n].key];
      assert m != n && m in s.nodes && Keys(s)[m] == Keys(s)[n];
    }
  }

  ghost predicate OwnersIndexed(s: State) {
    forall n :: n in s.nodes && s.nodes[n].owner != "" ==>
      s.nodes[n].owner in s.ownerIdx && s.ownerIdx[s.nodes[n].owner] == n
  }

  /** Owners likewise, among the nodes that have one. */
  lemma LoadedOwnersExactly(s: State, order: seq<NodeId>)
    requires Ranges(order, s.nodes)
    ensures OwnersIndexed(Loaded(s, order)) <==> Distinct(Owners(s))
  {
    var t, ix := Loaded(s, order), IndexNodes(s.nodes, order);
    IndexedHolders(s.nodes, order);
    LoadedTags(s, order);
    if OwnersIndexed(t) {
      forall a, b | a in Owners(s) && b in Owners(s) && Owners(s)[a] == Owners(s)[b] ensures a == b {
        assert a in t.nodes && b in t.nodes;
      }
    } else {
      var n :| n in t.nodes && t.nodes[n].owner != ""
               && !(t.nodes[n].owner in t.ownerIdx && t.ownerIdx[t.nodes[n].owner] == n);
      assert n in order && s.nodes[n].owner in ix.owners;
      var m := ix.owners[s.nodes[n].owner];
      assert m != n && m in s.nodes && Owners(s)[m] == Owners(s)[n];
    }
  }

  // --- restarts ---------------------------------------------------------------------------------------------

  /** The nodes loading leaves unfindable by key: none if no two share one. */
  function Overshadowed(snapshot: State, order: seq<NodeId>): set<NodeId> {
    Missing(Keys(Loaded(snapshot, order)), Loaded(snapshot, order).pubKeyIdx)
  }

  lemma OvershadowedExactly(snapshot: State, order: seq<NodeId>)
    requires Ranges(order, snapshot.nodes)
    ensures Overshadowed(snapshot, order) == {} <==> Distinct(Keys(snapshot))
  {
    LoadedKeysExactly(snapshot, order);
    IndexedIsNoneMissing(Loaded(snapshot, order));
  }

  /** The nodes a restart leaves unfindable: those loading does, and those the log loses. */
  ghost function LostInRestart(m: Machine, order: seq<NodeId>): set<NodeId> {
    LostKeys(Loaded(m.disk.snapshot, order), m.log, Overshadowed(m.disk.snapshot, order))
  }

  lemma RecoveredMissing(c: Codec, m: Machine, order: seq<NodeId>)
    requires Faithful(c) && MachineInv(c, m)
    ensures var t := Restart(c, m.disk, order); Missing(Keys(t), t.pubKeyIdx) == LostInRestart(m, order)
  {
    LogReads(c, m.disk.wal, m.log);
    LogLosesKeys(Loaded(m.disk.snapshot, order), m.log);
  }

  /** After a restart every live node is found by its key if and only if the replay loses none. */
  lemma RecoveredKeysExactly(c: Codec, m: Machine, order: seq<NodeId>)
    requires Faithful(c) && MachineInv(c, m)
    ensures KeysIndexed(Restart(c, m.disk, order)) <==> LostInRestart(m, order) == {}
  {
    RecoveredMissing(c, m, order);
    IndexedIsNoneMissing(Restart(c, m.disk, order));
  }

  ghost predicate NoneSigned(s: State) {
    forall n :: n in s.nodes ==> !s.nodes[n].sigVerified
  }

  lemma {:induction false} LogSignsNone(s: State, log: seq<Entry>)
    requires NoneSigned(s)
    ensures NoneSigned(ApplyLog(s, log))
    decreases |log|
  {
    if log != [] && !Malformed(log[0]) {
      var t := ApplyEntry(s, log[0]);
      forall n | n in t.nodes ensures !t.nodes[n].sigVerified { EntryNodesExactly(s, log[0], n); }
      LogSignsNone(t, log[1..]);
    }
  }

  lemma AnsweredByKey(s: State, r: Registration, n: NodeId)
    requires NoneSigned(s) && s.nextNode !in s.nodes && n in s.nodes && r.keyOk && r.key == s.nodes[n].key
    ensures RegisterId(s, r) == Some(n) <==> n !in Missing(Keys(s), s.pubKeyIdx)
    ensures n !in Missing(Keys(s), s.pubKeyIdx) ==> RegisterPath(s, r) == Refreshed
  {
    assert Keys(s)[n] == r.key;
  }

  /** The node that comes back under its key: a registration with the key of a recovered node
      refreshes that node and is answered its id, signed or not, if and only if the replay has
      not lost it. */
  lemma RecoveredNodeAnswers(c: Codec, m: Machine, order: seq<NodeId>, r: Registration, n: NodeId)
    requires Faithful(c) && MachineInv(c, m)
    requires n in Restart(c, m.disk, order).nodes && r.keyOk && r.key == Restart(c, m.disk, order).nodes[n].key
    ensures var t, lost := Restart(c, m.disk, order), LostInRestart(m, order);
            && (RegisterId(t, r) == Some(n) <==> n !in lost)
            && (n !in lost ==> RegisterPath(t, r) == Refreshed)
  {
    var t := Restart(c, m.disk, order);
    RecoveredMissing(c, m, order);
    LogReads(c, m.disk.wal, m.log);
    LogSignsNone(Loaded(m.disk.snapshot, order), m.log);
    RestartPaints(c, m, order);
    SoundNextNet(t);
    AnsweredByKey(t, r, n);
  }

  // --- keys that are nobody else's ----------------------------------------------------------------------------

  predicate Keyed(e: Entry) {
    e.RegisterEntry? || e.RotateEntry?
  }

  /** No two nodes share a key, and no entry brings a key that another node has or is brought. */
  ghost predicate KeysApart(keys: map<NodeId, string>, log: seq<Entry>) {
    && Distinct(keys)
    && (forall e, n :: e in log && Keyed(e) && n in keys && keys[n] == e.key ==> n == e.id)
    && (forall e, f :: e in log && f in log && Keyed(e) && Keyed(f) && e.key == f.key ==> e.id == f.id)
  }

  lemma ApartNext(s: State, log: seq<Entry>)
    requires log != [] && KeysApart(Keys(s), log)
    ensures KeyFree(s, log[0]) && KeysApart(Keys(ApplyEntry(s, log[0])), log[1..])
  {
    var e, rest := log[0], log[1..];
    assert forall f :: f in rest ==> f in log;
    EntryTurnsKeys(s, e);
    ApartFree(s, e, log);
    ApartTurns(Keys(s), KeyChange(s, e), e, log, rest);
  }

  lemma ApartFree(s: State, e: Entry, log: seq<Entry>)
    requires e in log && KeysApart(Keys(s), log)
    ensures KeyFree(s, e)
  {
    assert forall n :: n in s.nodes ==> Keys(s)[n] == s.nodes[n].key;
  }

  lemma ApartTurns(keys: map<NodeId, string>, c: Change, e: Entry, log: seq<Entry>, rest: seq<Entry>)
    requires KeysApart(keys, log) && e in log && (forall f :: f in rest ==> f in log)
    requires Fits(keys, c) && ((c.Comes? || c.Turns?) ==> Keyed(e) && c.n == e.id && c.x == e.key)
    ensures KeysApart(TagsAfter(keys, c), rest)
  {
  }

  lemma {:induction false} ApartKeepsKeys(s: State, log: seq<Entry>)
    requires KeysIndexed(s) && KeysApart(Keys(s), log)
    ensures KeysIndexed(ApplyLog(s, log))
    decreases |log|
  {
    if log != [] && !Malformed(log[0]) {
      ApartNext(s, log);
      EntryKeepsKeysExactly(s, log[0]);
      ApartKeepsKeys(ApplyEntry(s, log[0]), log[1..]);
    }
  }

  /** If keys are never reused, every recovered node is found by its key. */
  lemma UnsharedKeysRecover(c: Codec, m: Machine, order: seq<NodeId>)
    requires Faithful(c) && MachineInv(c, m) && Ranges(order, m.disk.snapshot.nodes)
    requires KeysApart(Keys(m.disk.snapshot), m.log)
    ensures KeysIndexed(Restart(c, m.disk, order))
  {
    LogReads(c, m.disk.wal, m.log);
    LoadedKeysExactly(m.disk.snapshot, order);
    LoadedTags(m.disk.snapshot, order);
    ApartKeepsKeys(Loaded(m.disk.snapshot, order), m.log);
  }

  // --- owners ---------------------------------------------------------------------------------------------------

  /** Every owner in the index leads to a live node of that owner. */
  ghost predicate OwnersLead(s: State) {
    forall o :: o in s.ownerIdx ==> o != "" && s.ownerIdx[o] in s.nodes && s.nodes[s.ownerIdx[o]].owner == o
  }

  lemma LoadedOwnersLead(s: State, order: seq<NodeId>)
    ensures OwnersLead(Loaded(s, order))
  {
    IndexedHolders(s.nodes, order);
  }

  lemma EntryOwnersLead(s: State, e: Entry)
    requires OwnersLead(s)
    ensures OwnersLead(ApplyEntry(s, e))
  {
    var t := ApplyEntry(s, e);
    forall o | o in t.ownerIdx ensures o != "" && t.ownerIdx[o] in t.nodes && t.nodes[t.ownerIdx[o]].owner == o {
      EntryNodesExactly(s, e, t.ownerIdx[o]);
    }
  }

  lemma {:induction false} LogOwnersLead(s: State, log: seq<Entry>)
    requires OwnersLead(s)
    ensures OwnersLead(ApplyLog(s, log))
    decreases |log|
  {
    if log != [] && !Malformed(log[0]) {
      EntryOwnersLead(s, log[0]);
      LogOwnersLead(ApplyEntry(s, log[0]), log[1..]);
    }
  }

  /** The nodes a restart leaves unfindable by owner. */
  ghost function OwnersLostInRestart(m: Machine, order: seq<NodeId>): set<NodeId> {
    var s := Loaded(m.disk.snapshot, order);
    LostOwners(s, m.log, Missing(Owners(s), s.ownerIdx))
  }

  lemma RecoveredOwnerMissing(c: Codec, m: Machine, order: seq<NodeId>)
    requires Faithful(c) && MachineInv(c, m)
    ensures var t := Restart(c, m.disk, order); Missing(Owners(t), t.ownerIdx) == OwnersLostInRestart(m, order)
  {
    LogReads(c, m.disk.wal, m.log);
    LogLosesOwners(Loaded(m.disk.snapshot, order), m.log);
  }

  /** After a restart every owner is found if and only if the replay loses none, and every
      owner that is found is a live node's: an owner whose node is gone is forgotten. */
  lemma RecoveredOwnersExactly(c: Codec, m: Machine, order: seq<NodeId>)
    requires Faithful(c) && MachineInv(c, m)
    ensures var t := Restart(c, m.disk, order);
            (OwnersIndexed(t) <==> OwnersLostInRestart(m, order) == {}) && OwnersLead(t)
  {
    var t := Restart(c, m.disk, order);
    RecoveredOwnerMissing(c, m, order);
    LoadedOwnersLead(m.disk.snapshot, order);
    LogReads(c, m.disk.wal, m.log);
    LogOwnersLead(Loaded(m.disk.snapshot, order), m.log);
    OwnersNoneMissing(t);
  }

  lemma OwnersNoneMissing(s: State)
    ensures OwnersIndexed(s) <==> Missing(Owners(s), s.ownerIdx) == {}
  {
    if OwnersIndexed(s) {
      assert forall n :: n in Missing(Owners(s), s.ownerIdx) ==> false;
    } else {
      var n :| n in s.nodes && s.nodes[n].owner != ""
               && !(s.nodes[n].owner in s.ownerIdx && s.ownerIdx[s.nodes[n].owner] == n);
      assert n in Missing(Owners(s), s.ownerIdx);
    }
  }

  lemma RefusedByOwner(s: State, r: Registration, n: NodeId)
    requires OwnersLead(s) && n in s.nodes
    ensures RegisterPath(s, r) != OwnerReclaimed
    ensures r.key !in s.pubKeyIdx && r.owner == s.nodes[n].owner != "" && n !in Missing(Owners(s), s.ownerIdx) ==>
            RegisterId(s, r) == None
  {
    if r.owner == s.nodes[n].owner != "" { assert Owners(s)[n] == r.owner; }
  }

  /** So an unknown key in a recovered node's owner's name is refused, unless the node was lost,
      and no registration right after a restart is given an id for its owner's sake. */
  lemma RecoveredOwnerRefuses(c: Codec, m: Machine, order: seq<NodeId>, r: Registration, n: NodeId)
    requires Faithful(c) && MachineInv(c, m) && n in Restart(c, m.disk, order).nodes
    ensures var t, lost := Restart(c, m.disk, order), OwnersLostInRestart(m, order);
            && RegisterPath(t, r) != OwnerReclaimed
            && (r.key !in t.pubKeyIdx && r.owner == t.nodes[n].owner != "" && n !in lost ==> RegisterId(t, r) == None)
  {
    var t := Restart(c, m.disk, order);
    RecoveredOwnersExactly(c, m, order);
    RecoveredOwnerMissing(c, m, order);
    RefusedByOwner(t, r, n);
  }
}
