/** The snapshot file: sorted maps of node records, the other fields, the checksum trailer,
    and the loader that re-encodes and hashes before it accepts. */
module SnapshotCodec {
  import opened Options
  import opened Json
  import opened Records
  import opened SortedKeys
  import opened NodeRecord

  // --- the snapshot ----------------------------------------------------------------------------------

  const HEAD_NAMES: seq<string> := [
    "version", "next_node", "next_net", "nodes", "networks", "trust_pairs", "pub_key_idx", "handshake_inbox",
    "handshake_responses", "invite_inbox"]

  const HEAD_RULES: seq<Rule> := [
    Never, Never, Never, Never, Never, WhenNil, WhenEmpty, WhenEmpty, WhenEmpty, WhenEmpty]

  const STATS_NAMES: seq<string> := [
    "total_requests", "total_nodes", "online_nodes", "trust_links", "unique_tags", "task_executors", "start_time",
    "restart_events", "downtime_intervals", "last_heartbeat", "probe_states"]

  const STATS_RULES: seq<Rule> := [
    WhenEmpty, WhenEmpty, WhenEmpty, WhenEmpty, WhenEmpty, WhenEmpty, WhenEmpty, WhenEmpty, WhenEmpty, WhenEmpty,
    WhenEmpty]

  const TAIL_NAMES: seq<string> := [
    "hourly_history", "daily_history", "net_hourly_history", "net_daily_history", "audit_log", "idp_config",
    "audit_export_config", "rbac_pre_assign", "term", "checksum"]

  const TAIL_RULES: seq<Rule> := [
    WhenEmpty, WhenEmpty, WhenEmpty, WhenEmpty, WhenEmpty, WhenNil, WhenNil, WhenEmpty, WhenEmpty, WhenEmpty]

  const HEAD_FIELDS: seq<Field> := Fields(HEAD_NAMES, HEAD_RULES)
  const STATS_FIELDS: seq<Field> := Fields(STATS_NAMES, STATS_RULES)
  const TAIL_FIELDS: seq<Field> := Fields(TAIL_NAMES, TAIL_RULES)

  /** The tags of the whole struct. */
  const SNAPSHOT_FIELDS: seq<Field> := HEAD_FIELDS + STATS_FIELDS + TAIL_FIELDS

  type NodeMap = map<string, Option<SnapshotNode>>

  /** The standard encoding of a map or slice, null if it is nil. */
  type Collection = j: Json | j.Null? || j.Arr? || j.Obj? witness Null

  function Len(c: Collection): nat {
    if c.Arr? then |c.items| else if c.Obj? then |c.members| else 0
  }

  /** The node map may be nil. Pre-encoded and referenced values are null when they are nil. */
  datatype Snapshot = Snapshot(
    version: int, nextNode: nat, nextNet: nat, nodes: Option<NodeMap>, networks: Collection, trustPairs: Json,
    pubKeyIdx: map<string, nat>, handshakeInbox: Collection, handshakeResponses: Collection,
    inviteInbox: Collection, totalRequests: int, totalNodes: int, onlineNodes: int, trustLinks: int,
    uniqueTags: int, taskExecutors: int, startTime: string, restartEvents: Collection,
    downtimeIntervals: Collection, lastHeartbeat: int, probeStates: Collection, hourlyHistory: Collection,
    dailyHistory: Collection, netHourlyHistory: Collection, netDailyHistory: Collection, auditLog: Collection,
    idpConfig: Json, auditExportConfig: Json, rbacPreAssign: Collection, term: nat, checksum: string)

  ghost function NodesJson(nodes: Option<NodeMap>): Json {
    if nodes.None? then Null else ObjOf(map k | k in nodes.value :: NodeJson(nodes.value[k]))
  }

  ghost function IdxJson(m: map<string, nat>): Json {
    ObjOf(map k | k in m :: Num(m[k]))
  }

  /** The field values in field order, given those of the two maps. */
  function Head(x: Snapshot, nodes: Json, idx: Json): (vs: seq<Json>)
    ensures |vs| == 10
  {
    [Num(x.version), Num(x.nextNode), Num(x.nextNet), nodes, x.networks, x.trustPairs, idx, x.handshakeInbox,
     x.handshakeResponses, x.inviteInbox]
  }

  ghost function HeadOf(x: Snapshot): (vs: seq<Json>)
    ensures |vs| == 10
  {
    Head(x, NodesJson(x.nodes), IdxJson(x.pubKeyIdx))
  }

  function Stats(x: Snapshot): (vs: seq<Json>)
    ensures |vs| == 11
  {
    [Num(x.totalRequests), Num(x.totalNodes), Num(x.onlineNodes), Num(x.trustLinks), Num(x.uniqueTags),
     Num(x.taskExecutors), Str(x.startTime), x.restartEvents, x.downtimeIntervals, Num(x.lastHeartbeat),
     x.probeStates]
  }

  function Tail(x: Snapshot): (vs: seq<Json>)
    ensures |vs| == 10
  {
    [x.hourlyHistory, x.dailyHistory, x.netHourlyHistory, x.netDailyHistory, x.auditLog, x.idpConfig,
     x.auditExportConfig, x.rbacPreAssign, Num(x.term), Str(x.checksum)]
  }

  function Listing(x: Snapshot, nodes: Json, idx: Json): (vs: seq<Json>)
    ensures |vs| == 31
  {
    Head(x, nodes, idx) + Stats(x) + Tail(x)
  }

  ghost function SnapshotValues(x: Snapshot): (vs: seq<Json>)
    ensures |vs| == 31
  {
    Listing(x, NodesJson(x.nodes), IdxJson(x.pubKeyIdx))
  }

  function NodesOf(j: Json): Option<NodeMap> {
    if j.Obj? then var m := MapOf(j.members); Some(map k | k in m :: PtrOf(m[k])) else None
  }

  function IdxOf(j: Json): map<string, nat> {
    if j.Obj? then var m := MapOf(j.members); map k | k in m :: NatOf(m[k]) else map[]
  }

  function CollectionOf(j: Json): Collection {
    if j.Arr? || j.Obj? then j else Null
  }

  function SnapshotOf(vs: seq<Json>): Snapshot
    requires |vs| == 31
  {
    Snapshot(
      IntOf(vs[0]), NatOf(vs[1]), NatOf(vs[2]), NodesOf(vs[3]), CollectionOf(vs[4]), vs[5], IdxOf(vs[6]),
      CollectionOf(vs[7]), CollectionOf(vs[8]), CollectionOf(vs[9]), IntOf(vs[10]), IntOf(vs[11]), IntOf(vs[12]),
      IntOf(vs[13]), IntOf(vs[14]), IntOf(vs[15]), TextOf(vs[16]), CollectionOf(vs[17]), CollectionOf(vs[18]),
      IntOf(vs[19]), CollectionOf(vs[20]), CollectionOf(vs[21]), CollectionOf(vs[22]), CollectionOf(vs[23]),
      CollectionOf(vs[24]), CollectionOf(vs[25]), vs[26], vs[27], CollectionOf(vs[28]), NatOf(vs[29]),
      TextOf(vs[30]))
  }

  /** The struct-tag encoding of a snapshot. */
  ghost function Encode(x: Snapshot): string {
    Print(Obj(Kept(SNAPSHOT_FIELDS, SnapshotValues(x))))
  }

  ghost function TidyNodes(nodes: Option<NodeMap>): Option<NodeMap> {
    if nodes.None? then None else Some(map k | k in nodes.value :: TidyPtr(nodes.value[k]))
  }

  /** An empty collection in a dropped field comes back nil. */
  function Drop(c: Collection): Collection {
    if Len(c) == 0 then Null else c
  }

  /** The snapshot as it comes back. */
  ghost function TidySnapshot(x: Snapshot): Snapshot {
    x.(nodes := TidyNodes(x.nodes),
       handshakeInbox := Drop(x.handshakeInbox), handshakeResponses := Drop(x.handshakeResponses),
       inviteInbox := Drop(x.inviteInbox), restartEvents := Drop(x.restartEvents),
       downtimeIntervals := Drop(x.downtimeIntervals), probeStates := Drop(x.probeStates),
       hourlyHistory := Drop(x.hourlyHistory), dailyHistory := Drop(x.dailyHistory),
       netHourlyHistory := Drop(x.netHourlyHistory), netDailyHistory := Drop(x.netDailyHistory),
       auditLog := Drop(x.auditLog), rbacPreAssign := Drop(x.rbacPreAssign))
  }

  lemma SnapshotNamesDistinct()
    ensures Distinct(SNAPSHOT_FIELDS)
  {
    var names := HEAD_NAMES + STATS_NAMES + TAIL_NAMES;
    NamesDiffer();
    assert forall i :: 0 <= i < |names| ==> SNAPSHOT_FIELDS[i].name == names[i];
  }

  lemma NamesDiffer()
    ensures var names := HEAD_NAMES + STATS_NAMES + TAIL_NAMES;
            forall i, j :: 0 <= i < j < |names| ==> names[i] != names[j]
  {
  }

  /** The members of a struct are those of its parts. */
  lemma KeptParts(h: seq<Json>, s: seq<Json>, t: seq<Json>)
    requires |h| == 10 && |s| == 11 && |t| == 10
    ensures Kept(SNAPSHOT_FIELDS, h + s + t) == Kept(HEAD_FIELDS, h) + Kept(STATS_FIELDS, s) + Kept(TAIL_FIELDS, t)
  {
    KeptConcat(HEAD_FIELDS + STATS_FIELDS, h + s, TAIL_FIELDS, t);
    KeptConcat(HEAD_FIELDS, h, STATS_FIELDS, s);
  }

  // --- decoding what was encoded ----------------------------------------------------------------------

  lemma NodesRoundTrip(nodes: Option<NodeMap>)
    ensures NodesOf(NodesJson(nodes)) == TidyNodes(nodes)
  {
    if nodes.Some? {
      var m := map k | k in nodes.value :: NodeJson(nodes.value[k]);
      MapOfObjOf(m);
      forall k | k in nodes.value ensures PtrOf(m[k]) == TidyPtr(nodes.value[k]) { NodeRoundTrip(nodes.value[k]); }
      assert NodesOf(NodesJson(nodes)).value == TidyNodes(nodes).value;
    }
  }

  lemma IdxBack(m: map<string, nat>)
    ensures IdxOf(IdxJson(m)) == m
  {
    MapOfObjOf(map k | k in m :: Num(m[k]));
  }

  lemma IdxEmpty(m: map<string, nat>)
    ensures Empty(IdxJson(m)) <==> m == map[]
  {
    var j := map k | k in m :: Num(m[k]);
    SomeListing(m.Keys);
    var ks :| SortedKeys.Lists(ks, m.Keys);
    assert j.Keys == m.Keys;
    ObjOfListing(j, ks);
    assert ks != [] ==> ks[0] in ks;
    assert m != map[] ==> exists k :: k in m;
  }

  /** A dropped index reads as the empty one. */
  lemma IdxCarried(m: map<string, nat>)
    ensures IdxOf(if Omitted(WhenEmpty, IdxJson(m)) then Null else IdxJson(m)) == m
  {
    IdxBack(m);
    IdxEmpty(m);
  }

  lemma Carried(c: Collection)
    ensures CollectionOf(if Omitted(WhenEmpty, c) then Null else c) == Drop(c) && CollectionOf(c) == c
  {
  }

  /** Scalars read the same from both, so only the other fields can differ. */
  lemma SnapshotOfReadsAs(c: seq<Json>, vs: seq<Json>)
    requires |vs| == 31 && ReadsAs(c, vs)
    ensures SnapshotOf(c) == SnapshotOf(vs).(
              nodes := NodesOf(c[3]), networks := CollectionOf(c[4]), trustPairs := c[5], pubKeyIdx := IdxOf(c[6]),
              handshakeInbox := CollectionOf(c[7]), handshakeResponses := CollectionOf(c[8]),
              inviteInbox := CollectionOf(c[9]), restartEvents := CollectionOf(c[17]),
              downtimeIntervals := CollectionOf(c[18]), probeStates := CollectionOf(c[20]),
              hourlyHistory := CollectionOf(c[21]), dailyHistory := CollectionOf(c[22]),
              netHourlyHistory := CollectionOf(c[23]), netDailyHistory := CollectionOf(c[24]),
              auditLog := CollectionOf(c[25]), idpConfig := c[26], auditExportConfig := c[27],
              rbacPreAssign := CollectionOf(c[28]))
  {
  }

  lemma SnapshotOfListing(x: Snapshot, nodes: Json, idx: Json)
    ensures SnapshotOf(Listing(x, nodes, idx)) == x.(nodes := NodesOf(nodes), pubKeyIdx := IdxOf(idx))
  {
  }

  lemma RulesAt()
    ensures SNAPSHOT_FIELDS[3].rule == Never
    ensures SNAPSHOT_FIELDS[4].rule == Never
    ensures SNAPSHOT_FIELDS[5].rule == WhenNil
    ensures SNAPSHOT_FIELDS[6].rule == WhenEmpty
    ensures SNAPSHOT_FIELDS[7].rule == WhenEmpty
    ensures SNAPSHOT_FIELDS[8].rule == WhenEmpty
    ensures SNAPSHOT_FIELDS[9].rule == WhenEmpty
    ensures SNAPSHOT_FIELDS[17].rule == WhenEmpty
    ensures SNAPSHOT_FIELDS[18].rule == WhenEmpty
    ensures SNAPSHOT_FIELDS[20].rule == WhenEmpty
    ensures SNAPSHOT_FIELDS[21].rule == WhenEmpty
    ensures SNAPSHOT_FIELDS[22].rule == WhenEmpty
    ensures SNAPSHOT_FIELDS[23].rule == WhenEmpty
    ensures SNAPSHOT_FIELDS[24].rule == WhenEmpty
    ensures SNAPSHOT_FIELDS[25].rule == WhenEmpty
    ensures SNAPSHOT_FIELDS[26].rule == WhenNil
    ensures SNAPSHOT_FIELDS[27].rule == WhenNil
    ensures SNAPSHOT_FIELDS[28].rule == WhenEmpty
  {
  }

  lemma HeadCarried(x: Snapshot)
    ensures var c := Canon(SNAPSHOT_FIELDS, SnapshotValues(x));
            && NodesOf(c[3]) == TidyNodes(x.nodes)
            && CollectionOf(c[4]) == x.networks
            && c[5] == x.trustPairs
            && IdxOf(c[6]) == x.pubKeyIdx
            && CollectionOf(c[7]) == Drop(x.handshakeInbox)
            && CollectionOf(c[8]) == Drop(x.handshakeResponses)
            && CollectionOf(c[9]) == Drop(x.inviteInbox)
  {
    RulesAt();
    NodesRoundTrip(x.nodes);
    IdxCarried(x.pubKeyIdx);
    Carried(x.handshakeInbox);
    Carried(x.handshakeResponses);
    Carried(x.inviteInbox);
  }

  lemma StatsCarried(x: Snapshot)
    ensures var c := Canon(SNAPSHOT_FIELDS, SnapshotValues(x));
            && CollectionOf(c[17]) == Drop(x.restartEvents)
            && CollectionOf(c[18]) == Drop(x.downtimeIntervals)
            && CollectionOf(c[20]) == Drop(x.probeStates)
  {
    RulesAt();
    Carried(x.restartEvents);
    Carried(x.downtimeIntervals);
    Carried(x.probeStates);
  }

  lemma TailCarried(x: Snapshot)
    ensures var c := Canon(SNAPSHOT_FIELDS, SnapshotValues(x));
            && CollectionOf(c[21]) == Drop(x.hourlyHistory)
            && CollectionOf(c[22]) == Drop(x.dailyHistory)
            && CollectionOf(c[23]) == Drop(x.netHourlyHistory)
            && CollectionOf(c[24]) == Drop(x.netDailyHistory)
            && CollectionOf(c[25]) == Drop(x.auditLog)
            && c[26] == x.idpConfig
            && c[27] == x.auditExportConfig
            && CollectionOf(c[28]) == Drop(x.rbacPreAssign)
  {
    RulesAt();
    Carried(x.hourlyHistory);
    Carried(x.dailyHistory);
    Carried(x.netHourlyHistory);
    Carried(x.netDailyHistory);
    Carried(x.auditLog);
    Carried(x.rbacPreAssign);
  }

  lemma SnapshotOfCanon(x: Snapshot)
    ensures SnapshotOf(Canon(SNAPSHOT_FIELDS, SnapshotValues(x))) == TidySnapshot(x)
  {
    var vs, c := SnapshotValues(x), Canon(SNAPSHOT_FIELDS, SnapshotValues(x));
    CanonReadsAs(SNAPSHOT_FIELDS, vs);
    SnapshotOfReadsAs(c, vs);
    SnapshotOfListing(x, NodesJson(x.nodes), IdxJson(x.pubKeyIdx));
    HeadCarried(x);
    StatsCarried(x);
    TailCarried(x);
  }

  /** What the loader makes of a text: none if it is no JSON object. */
  function Decode(text: string): Option<Snapshot> {
    var r := Parse(text);
    if r.Fail? || !r.value.Obj? then None else Some(SnapshotOf(Fill(SNAPSHOT_FIELDS, r.value.members)))
  }

  /** Reading the printed snapshot gives it back, whatever its strings contain, with empty
      optional collections nil. */
  lemma SnapshotRoundTrip(x: Snapshot)
    ensures Decode(Encode(x)) == Some(TidySnapshot(x))
  {
    ParsePrint(Obj(Kept(SNAPSHOT_FIELDS, SnapshotValues(x))));
    SnapshotNamesDistinct();
    FillKept(SNAPSHOT_FIELDS, SnapshotValues(x));
    SnapshotOfCanon(x);
  }

  // --- encoding what was decoded ----------------------------------------------------------------------

  lemma NodesJsonTidy(nodes: Option<NodeMap>)
    ensures NodesJson(TidyNodes(nodes)) == NodesJson(nodes)
  {
    if nodes.Some? {
      var tidy := TidyNodes(nodes).value;
      forall k | k in nodes.value ensures NodeJson(tidy[k]) == NodeJson(nodes.value[k]) {
        NodeJsonTidy(nodes.value[k]);
      }
      assert (map k | k in tidy :: NodeJson(tidy[k])) == map k | k in nodes.value :: NodeJson(nodes.value[k]);
    }
  }

  /** Two values that are the same or both left out. */
  predicate Alike(rule: Rule, a: Json, b: Json) {
    a == b || (Omitted(rule, a) && Omitted(rule, b))
  }

  lemma DropAlike(c: Collection)
    ensures Alike(WhenEmpty, Drop(c), c)
  {
  }

  lemma KeptAlike(fs: seq<Field>, a: seq<Json>, b: seq<Json>)
    requires |fs| == |a| == |b| && forall i :: 0 <= i < |fs| ==> Alike(fs[i].rule, a[i], b[i])
    ensures Kept(fs, a) == Kept(fs, b)
  {
    assert Canon(fs, a) == Canon(fs, b);
    KeptCanon(fs, a);
    KeptCanon(fs, b);
  }

  lemma HeadAlike(x: Snapshot, nodes: Json, idx: Json)
    ensures Kept(HEAD_FIELDS, Head(TidySnapshot(x), nodes, idx)) == Kept(HEAD_FIELDS, Head(x, nodes, idx))
  {
    var vs, ws := Head(x, nodes, idx), Head(TidySnapshot(x), nodes, idx);
    DropAlike(x.handshakeInbox);
    DropAlike(x.handshakeResponses);
    DropAlike(x.inviteInbox);
    assert ws[..7] == vs[..7] && forall i :: 0 <= i < 7 ==> ws[i] == ws[..7][i] == vs[i];
    assert Alike(HEAD_RULES[7], ws[7], vs[7]) && Alike(HEAD_RULES[8], ws[8], vs[8]) &&
           Alike(HEAD_RULES[9], ws[9], vs[9]);
    KeptAlike(HEAD_FIELDS, ws, vs);
  }

  lemma HeadTidy(x: Snapshot)
    ensures Kept(HEAD_FIELDS, HeadOf(TidySnapshot(x))) == Kept(HEAD_FIELDS, HeadOf(x))
  {
    NodesJsonTidy(x.nodes);
    HeadAlike(x, NodesJson(x.nodes), IdxJson(x.pubKeyIdx));
  }

  lemma StatsTidy(x: Snapshot)
    ensures Kept(STATS_FIELDS, Stats(TidySnapshot(x))) == Kept(STATS_FIELDS, Stats(x))
  {
    var vs, ws := Stats(x), Stats(TidySnapshot(x));
    DropAlike(x.restartEvents);
    DropAlike(x.downtimeIntervals);
    DropAlike(x.probeStates);
    assert Alike(STATS_RULES[0], ws[0], vs[0]) && Alike(STATS_RULES[1], ws[1], vs[1]) &&
           Alike(STATS_RULES[2], ws[2], vs[2]) && Alike(STATS_RULES[3], ws[3], vs[3]) &&
           Alike(STATS_RULES[4], ws[4], vs[4]) && Alike(STATS_RULES[5], ws[5], vs[5]) &&
           Alike(STATS_RULES[6], ws[6], vs[6]) && Alike(STATS_RULES[7], ws[7], vs[7]) &&
           Alike(STATS_RULES[8], ws[8], vs[8]) && Alike(STATS_RULES[9], ws[9], vs[9]) &&
           Alike(STATS_RULES[10], ws[10], vs[10]);
    KeptAlike(STATS_FIELDS, ws, vs);
  }

  lemma TailTidy(x: Snapshot)
    ensures Kept(TAIL_FIELDS, Tail(TidySnapshot(x))) == Kept(TAIL_FIELDS, Tail(x))
  {
    var vs, ws := Tail(x), Tail(TidySnapshot(x));
    DropAlike(x.hourlyHistory);
    DropAlike(x.dailyHistory);
    DropAlike(x.netHourlyHistory);
    DropAlike(x.netDailyHistory);
    DropAlike(x.auditLog);
    DropAlike(x.rbacPreAssign);
    assert Alike(TAIL_RULES[0], ws[0], vs[0]) && Alike(TAIL_RULES[1], ws[1], vs[1]) &&
           Alike(TAIL_RULES[2], ws[2], vs[2]) && Alike(TAIL_RULES[3], ws[3], vs[3]) &&
           Alike(TAIL_RULES[4], ws[4], vs[4]) && Alike(TAIL_RULES[5], ws[5], vs[5]) &&
           Alike(TAIL_RULES[6], ws[6], vs[6]) && Alike(TAIL_RULES[7], ws[7], vs[7]) &&
           Alike(TAIL_RULES[8], ws[8], vs[8]) && Alike(TAIL_RULES[9], ws[9], vs[9]);
    KeptAlike(TAIL_FIELDS, ws, vs);
  }

  /** Re-encoding the decoded snapshot gives the same bytes. */
  lemma TidyEncodes(x: Snapshot)
    ensures Encode(TidySnapshot(x)) == Encode(x)
  {
    HeadTidy(x);
    StatsTidy(x);
    TailTidy(x);
    var y := TidySnapshot(x);
    KeptParts(HeadOf(x), Stats(x), Tail(x));
    KeptParts(HeadOf(y), Stats(y), Tail(y));
  }

  // --- the checksum trailer ----------------------------------------------------------------------------

  /** The file: the body with its last brace replaced by a checksum member. */
  ghost function File(x: Snapshot, hash: string -> string): string {
    var body := Encode(x.(checksum := ""));
    if body == "" then "" else body[..|body| - 1] + ",\"checksum\":\"" + hash(body) + "\"}"
  }

  /** The loader: a file with a checksum is accepted only if re-encoding it without the
      checksum hashes to the same value. */
  ghost function Load(file: string, hash: string -> string): Option<Snapshot> {
    var x := Decode(file);
    if x.None? then None
    else if x.value.checksum != "" && hash(Encode(x.value.(checksum := ""))) != x.value.checksum then None
    else x
  }

  /** The members before the checksum. */
  ghost function Body(x: Snapshot): Members {
    Kept(HEAD_FIELDS, HeadOf(x)) + Kept(STATS_FIELDS, Stats(x))
    + Kept(TAIL_FIELDS[..9], Tail(x)[..9])
  }

  lemma TailChecksum(x: Snapshot, sum: string)
    ensures var vs := Tail(x.(checksum := sum)); vs[..9] == Tail(x)[..9] && vs[9] == Str(sum)
    ensures TAIL_FIELDS[9] == Field("checksum", WhenEmpty)
  {
    assert TAIL_NAMES[9] == "checksum" && TAIL_RULES[9] == WhenEmpty;
  }

  lemma ChecksumLast(x: Snapshot, sum: string)
    ensures Kept(SNAPSHOT_FIELDS, SnapshotValues(x.(checksum := sum)))
            == Body(x) + if sum == "" then [] else [("checksum", Str(sum))]
  {
    var y := x.(checksum := sum);
    var h := HeadOf(x);
    TailChecksum(x, sum);
    KeptParts(h, Stats(x), Tail(y));
    assert HeadOf(y) == h && Stats(y) == Stats(x);
    KeptLast(TAIL_FIELDS, Tail(y));
  }

  lemma {:induction false} KeptFirst(fs: seq<Field>, vs: seq<Json>)
    requires |fs| == |vs| && fs != [] && fs[0].rule == Never
    ensures Kept(fs, vs) != []
  {
    if |fs| > 1 {
      KeptFirst(fs[..|fs| - 1], vs[..|fs| - 1]);
    }
  }

  lemma BodyStarts(x: Snapshot)
    ensures Body(x) != []
  {
    assert HEAD_RULES[0] == Never;
    KeptFirst(HEAD_FIELDS, HeadOf(x));
  }

  lemma ChecksumPlain()
    ensures Plain("checksum") && "\"" + "checksum" + "\"" == "\"checksum\""
  {
  }

  lemma ChecksumName()
    ensures Quote("checksum") == "\"checksum\""
  {
    ChecksumPlain();
    var name := "checksum";
    PlainQuote(name);
  }

  lemma ChecksumStart()
    ensures ",\"checksum\":\"" == "," + "\"checksum\"" + ":" + "\""
  {
  }

  lemma Rearrange(open: string, name: string, sum: string)
    ensures open + ("," + name + ":" + "\"") + sum + "\"}"
            == open + "," + (name + ":" + ("\"" + sum + "\"")) + "}"
  {
  }

  lemma TrailerText(front: seq<(string, Json)>, sum: string)
    requires front != [] && Plain(sum)
    ensures var body := Print(Obj(front));
            body != "" &&
            body[..|body| - 1] + ",\"checksum\":\"" + sum + "\"}" == Print(Obj(front + [("checksum", Str(sum))]))
  {
    var m := ("checksum", Str(sum));
    var body, open := Print(Obj(front)), "{" + Open(front);
    OpenIsText(front);
    OpenIsText(front + [m]);
    OpenSnoc(front, m);
    assert body == open + "}" && body[..|body| - 1] == open;
    assert PrintMember(m) == Quote("checksum") + ":" + Quote(sum);
    assert Print(Obj(front + [m])) == open + "," + PrintMember(m) + "}" by {
      Grow("{", front, m);
    }
    PlainQuote(sum);
    ChecksumName();
    ChecksumStart();
    Rearrange(open, Quote("checksum"), sum);
  }

  /** The trailer spells exactly the checksum member the encoder would have written. */
  lemma FileIsEncoding(x: Snapshot, hash: string -> string)
    requires var sum := hash(Encode(x.(checksum := ""))); sum != "" && Plain(sum)
    ensures File(x, hash) == Encode(x.(checksum := hash(Encode(x.(checksum := "")))))
  {
    var body := Encode(x.(checksum := ""));
    var sum := hash(body);
    var front := Body(x);
    ChecksumLast(x, "");
    ChecksumLast(x, sum);
    assert front + [] == front;
    BodyStarts(x);
    TrailerText(front, sum);
  }

  /** A saved file always passes the loader's check and loads what was saved. */
  lemma SavedFileLoads(x: Snapshot, hash: string -> string)
    requires forall text :: hash(text) != "" && Plain(hash(text))
    ensures var sum := hash(Encode(x.(checksum := "")));
            Load(File(x, hash), hash) == Some(TidySnapshot(x).(checksum := sum))
  {
    var sum := hash(Encode(x.(checksum := "")));
    FileIsEncoding(x, hash);
    SnapshotRoundTrip(x.(checksum := sum));
    TidyEncodes(x.(checksum := ""));
    assert TidySnapshot(x).(checksum := "") == TidySnapshot(x.(checksum := ""));
  }

  /** If the hash has no collisions, a file accepted with the checksum of `x` holds `x`. */
  lemma AcceptedIsSaved(x: Snapshot, file: string, hash: string -> string)
    requires forall a, b :: hash(a) == hash(b) ==> a == b
    requires Load(file, hash).Some?
    requires var y := Load(file, hash).value; y.checksum != "" && y.checksum == hash(Encode(x.(checksum := "")))
    ensures TidySnapshot(Load(file, hash).value.(checksum := "")) == TidySnapshot(x.(checksum := ""))
  {
    var y := Load(file, hash).value;
    SnapshotRoundTrip(x.(checksum := ""));
    SnapshotRoundTrip(y.(checksum := ""));
  }
}
