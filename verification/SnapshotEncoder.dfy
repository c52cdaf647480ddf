/** The two encoders of a snapshot: the hand-written one of the save, block by block, and the
    standard one the loader checks it with. */
module SnapshotEncoder {
  import opened Options
  import opened Json
  import opened Records
  import opened SortedKeys
  import opened Printers
  import opened NodeRecord
  import opened SnapshotCodec

  // --- maps ---------------------------------------------------------------------------------------------

  /** SnapshotNodes.appendTo: whatever order the keys were collected in. */
  method AppendNodes(dst: string, nodes: Option<NodeMap>) returns (r: string)
    ensures r == dst + Print(NodesJson(nodes))
  {
    if nodes.None? { return dst + "null"; }
    ghost var j := map k | k in nodes.value :: NodeJson(nodes.value[k]);
    assert j.Keys == nodes.value.Keys;
    r := AppendNodeMap(dst, nodes.value, j);
  }

  /** One more member of a map: the separator, the key, a colon and the value. */
  lemma GrowMap(a: string, ms: Members, i: nat)
    requires i < |ms|
    ensures a + Open(ms[..i + 1])
            == a + Open(ms[..i]) + (if i == 0 then "" else ",") + Print(Str(ms[i].0)) + ":" + Print(ms[i].1)
  {
    assert ms[..i + 1] == ms[..i] + [ms[i]];
    Grow(a, ms[..i], ms[i]);
    Split(a + Open(ms[..i]) + (if i == 0 then "" else ","), Print(Str(ms[i].0)), Print(ms[i].1));
  }

  lemma Split(a: string, k: string, v: string)
    ensures a + (k + ":" + v) == a + k + ":" + v
  {
  }

  method AppendKey(dst: string, i: nat, key: string) returns (r: string)
    ensures r == dst + (if i == 0 then "" else ",") + Print(Str(key)) + ":"
  {
    r := dst + if i > 0 then "," else "";
    r := AppendJSONString(r, key);
    r := r + ":";
  }

  method AppendNodeMap(dst: string, m: NodeMap, ghost j: map<string, Json>) returns (r: string)
    requires j.Keys == m.Keys && forall k :: k in m ==> j[k] == NodeJson(m[k])
    ensures r == dst + Print(ObjOf(j))
  {
    var keys := SortKeys(m.Keys);
    ObjOfListing(j, keys);
    assert forall i :: 0 <= i < |keys| ==> keys[i] in keys;
    r := AppendSortedNodeMap(dst, m, keys, Pairs(keys, j));
  }

  method AppendSortedNodeMap(dst: string, m: NodeMap, keys: seq<string>, ghost ms: Members) returns (r: string)
    requires |ms| == |keys| && forall i :: 0 <= i < |keys| ==> keys[i] in m && ms[i] == (keys[i], NodeJson(m[keys[i]]))
    ensures r == dst + Print(Obj(ms))
  {
    r := dst + "{";
    var i := 0;
    while i < |keys|
      invariant i <= |keys| && r == dst + "{" + Open(ms[..i])
    {
      GrowMap(dst + "{", ms, i);
      r := AppendKey(r, i, keys[i]);
      r := AppendSnapshotNode(r, m[keys[i]]);
      i := i + 1;
    }
    assert ms[..i] == ms;
    CloseText(dst, ms);
    r := r + "}";
  }

  method AppendPubKeyIdx(dst: string, m: map<string, nat>) returns (r: string)
    ensures r == dst + Print(IdxJson(m))
  {
    ghost var j := map k | k in m :: Num(m[k]);
    assert j.Keys == m.Keys;
    r := AppendIdx(dst, m, j);
  }

  method AppendIdx(dst: string, m: map<string, nat>, ghost j: map<string, Json>) returns (r: string)
    requires j.Keys == m.Keys && forall k :: k in m ==> j[k] == Num(m[k])
    ensures r == dst + Print(ObjOf(j))
  {
    var keys := SortKeys(m.Keys);
    ObjOfListing(j, keys);
    assert forall i :: 0 <= i < |keys| ==> keys[i] in keys;
    r := AppendSortedIdx(dst, m, keys, Pairs(keys, j));
  }

  method AppendSortedIdx(dst: string, m: map<string, nat>, keys: seq<string>, ghost ms: Members) returns (r: string)
    requires |ms| == |keys| && forall i :: 0 <= i < |keys| ==> keys[i] in m && ms[i] == (keys[i], Num(m[keys[i]]))
    ensures r == dst + Print(Obj(ms))
  {
    r := dst + "{";
    var i := 0;
    while i < |keys|
      invariant i <= |keys| && r == dst + "{" + Open(ms[..i])
    {
      GrowMap(dst + "{", ms, i);
      r := AppendKey(r, i, keys[i]);
      r := AppendInt(r, m[keys[i]]);
      i := i + 1;
    }
    assert ms[..i] == ms;
    CloseText(dst, ms);
    r := r + "}";
  }

  // --- the hand-written encoder ---------------------------------------------------------------------------

  lemma HeadNamesPlain1()
    ensures Plain("version") && Plain("next_node") && Plain("next_net") &&
            Plain("nodes") && Plain("networks") && Plain("trust_pairs")
  {
  }

  lemma HeadNamesPlain2()
    ensures Plain("pub_key_idx") && Plain("handshake_inbox") && Plain("handshake_responses") &&
            Plain("invite_inbox")
  {
  }

  lemma HeadNamesPlain(k: nat)
    requires k < |HEAD_NAMES|
    ensures Plain(HEAD_NAMES[k])
  {
    HeadNamesPlain1();
    HeadNamesPlain2();
  }

  /** The members before each of these fields and after the last. */
  ghost predicate HeadLadder(f: seq<Members>, x: Snapshot) {
    Ladder(f, HEAD_NAMES, HEAD_RULES, HeadOf(x))
  }

  lemma HeadRow(f: seq<Members>, x: Snapshot, k: nat, name: string, rule: Rule, v: Json)
    requires HeadLadder(f, x) && k < 10 && HEAD_NAMES[k] == name && HEAD_RULES[k] == rule && HeadOf(x)[k] == v
    ensures |f| == 11 && Adds(f[k], f[k + 1], Omitted(rule, v), name, v)
  {
  }

  lemma StatsNamesPlain1()
    ensures Plain("total_requests") && Plain("total_nodes") && Plain("online_nodes") &&
            Plain("trust_links") && Plain("unique_tags") && Plain("task_executors")
  {
  }

  lemma StatsNamesPlain2()
    ensures Plain("start_time") && Plain("restart_events") && Plain("downtime_intervals") &&
            Plain("last_heartbeat") && Plain("probe_states")
  {
  }

  lemma StatsNamesPlain(k: nat)
    requires k < |STATS_NAMES|
    ensures Plain(STATS_NAMES[k])
  {
    StatsNamesPlain1();
    StatsNamesPlain2();
  }

  /** The members before each of these fields and after the last. */
  ghost predicate StatsLadder(f: seq<Members>, x: Snapshot) {
    Ladder(f, STATS_NAMES, STATS_RULES, Stats(x))
  }

  lemma StatsRow(f: seq<Members>, x: Snapshot, k: nat, name: string, rule: Rule, v: Json)
    requires StatsLadder(f, x) && k < 11 && STATS_NAMES[k] == name && STATS_RULES[k] == rule && Stats(x)[k] == v
    ensures |f| == 12 && Adds(f[k], f[k + 1], Omitted(rule, v), name, v)
  {
  }

  lemma TailNamesPlain1()
    ensures Plain("hourly_history") && Plain("daily_history") && Plain("net_hourly_history") &&
            Plain("net_daily_history") && Plain("audit_log") && Plain("idp_config")
  {
  }

  lemma TailNamesPlain2()
    ensures Plain("audit_export_config") && Plain("rbac_pre_assign") && Plain("term") &&
            Plain("checksum")
  {
  }

  lemma TailNamesPlain(k: nat)
    requires k < |TAIL_NAMES|
    ensures Plain(TAIL_NAMES[k])
  {
    TailNamesPlain1();
    TailNamesPlain2();
  }

  /** The members before each of these fields and after the last. */
  ghost predicate TailLadder(f: seq<Members>, x: Snapshot) {
    Ladder(f, TAIL_NAMES, TAIL_RULES, Tail(x))
  }

  lemma TailRow(f: seq<Members>, x: Snapshot, k: nat, name: string, rule: Rule, v: Json)
    requires TailLadder(f, x) && k < 10 && TAIL_NAMES[k] == name && TAIL_RULES[k] == rule && Tail(x)[k] == v
    ensures |f| == 11 && Adds(f[k], f[k + 1], Omitted(rule, v), name, v)
  {
  }

  ghost predicate CountersRows(f: seq<Members>, x: Snapshot) {
    && |f| == 11
    && Adds(f[0], f[1], false, "version", Num(x.version))
    && Adds(f[1], f[2], false, "next_node", Num(x.nextNode))
    && Adds(f[2], f[3], false, "next_net", Num(x.nextNet))
  }

  lemma CountersTable(f: seq<Members>, x: Snapshot)
    requires HeadLadder(f, x)
    ensures CountersRows(f, x)
  {
    HeadRow(f, x, 0, "version", Never, Num(x.version));
    HeadRow(f, x, 1, "next_node", Never, Num(x.nextNode));
    HeadRow(f, x, 2, "next_net", Never, Num(x.nextNet));
  }

  method AppendCounters(b: Buffer, x: Snapshot, ghost f: seq<Members>)
    requires CountersRows(f, x) && b.Ready() && b.members == f[0]
    modifies b
    ensures b.Ready() && b.members == f[3]
  {
    b.Key("version");
    b.Int(x.version);
    b.Key("next_node");
    b.Int(x.nextNode);
    b.Key("next_net");
    b.Int(x.nextNet);
  }

  ghost predicate NodesRows(f: seq<Members>, x: Snapshot) {
    && |f| == 11
    && Adds(f[3], f[4], false, "nodes", NodesJson(x.nodes))
    && Adds(f[4], f[5], false, "networks", x.networks)
  }

  lemma NodesTable(f: seq<Members>, x: Snapshot)
    requires HeadLadder(f, x)
    ensures NodesRows(f, x)
  {
    HeadRow(f, x, 3, "nodes", Never, NodesJson(x.nodes));
    HeadRow(f, x, 4, "networks", Never, x.networks);
  }

  method AppendNodesField(b: Buffer, x: Snapshot, ghost f: seq<Members>)
    requires NodesRows(f, x) && b.Ready() && b.members == f[3]
    modifies b
    ensures b.Ready() && b.members == f[5]
  {
    b.Key("nodes");
    var nodes := AppendNodes(b.dst, x.nodes);
    b.Put(nodes, NodesJson(x.nodes));
    b.Key("networks");
    b.Std(x.networks);
  }

  ghost predicate PairsRows(f: seq<Members>, x: Snapshot) {
    && |f| == 11
    && Adds(f[5], f[6], x.trustPairs == Null, "trust_pairs", x.trustPairs)
    && Adds(f[6], f[7], x.pubKeyIdx == map[], "pub_key_idx", IdxJson(x.pubKeyIdx))
  }

  lemma PairsTable(f: seq<Members>, x: Snapshot)
    requires HeadLadder(f, x)
    ensures PairsRows(f, x)
  {
    HeadRow(f, x, 5, "trust_pairs", WhenNil, x.trustPairs);
    IdxEmpty(x.pubKeyIdx);
    HeadRow(f, x, 6, "pub_key_idx", WhenEmpty, IdxJson(x.pubKeyIdx));
  }

  method AppendPairs(b: Buffer, x: Snapshot, ghost f: seq<Members>)
    requires PairsRows(f, x) && b.Ready() && b.members == f[5]
    modifies b
    ensures b.Ready() && b.members == f[7]
  {
    if x.trustPairs != Null {
      b.Key("trust_pairs");
      b.Std(x.trustPairs);
    }
    if x.pubKeyIdx != map[] {
      b.Key("pub_key_idx");
      var idx := AppendPubKeyIdx(b.dst, x.pubKeyIdx);
      b.Put(idx, IdxJson(x.pubKeyIdx));
    }
  }

  ghost predicate InboxesRows(f: seq<Members>, x: Snapshot) {
    && |f| == 11
    && Adds(f[7], f[8], Len(x.handshakeInbox) == 0, "handshake_inbox", x.handshakeInbox)
    && Adds(f[8], f[9], Len(x.handshakeResponses) == 0, "handshake_responses", x.handshakeResponses)
    && Adds(f[9], f[10], Len(x.inviteInbox) == 0, "invite_inbox", x.inviteInbox)
  }

  lemma InboxesTable(f: seq<Members>, x: Snapshot)
    requires HeadLadder(f, x)
    ensures InboxesRows(f, x)
  {
    HeadRow(f, x, 7, "handshake_inbox", WhenEmpty, x.handshakeInbox);
    HeadRow(f, x, 8, "handshake_responses", WhenEmpty, x.handshakeResponses);
    HeadRow(f, x, 9, "invite_inbox", WhenEmpty, x.inviteInbox);
  }

  method AppendInboxes(b: Buffer, x: Snapshot, ghost f: seq<Members>)
    requires InboxesRows(f, x) && b.Ready() && b.members == f[7]
    modifies b
    ensures b.Ready() && b.members == f[10]
  {
    if Len(x.handshakeInbox) > 0 {
      b.Key("handshake_inbox");
      b.Std(x.handshakeInbox);
    }
    if Len(x.handshakeResponses) > 0 {
      b.Key("handshake_responses");
      b.Std(x.handshakeResponses);
    }
    if Len(x.inviteInbox) > 0 {
      b.Key("invite_inbox");
      b.Std(x.inviteInbox);
    }
  }

  ghost predicate TotalsRows(f: seq<Members>, x: Snapshot) {
    && |f| == 12
    && Adds(f[0], f[1], x.totalRequests == 0, "total_requests", Num(x.totalRequests))
    && Adds(f[1], f[2], x.totalNodes == 0, "total_nodes", Num(x.totalNodes))
    && Adds(f[2], f[3], x.onlineNodes == 0, "online_nodes", Num(x.onlineNodes))
  }

  lemma TotalsTable(f: seq<Members>, x: Snapshot)
    requires StatsLadder(f, x)
    ensures TotalsRows(f, x)
  {
    StatsRow(f, x, 0, "total_requests", WhenEmpty, Num(x.totalRequests));
    StatsRow(f, x, 1, "total_nodes", WhenEmpty, Num(x.totalNodes));
    StatsRow(f, x, 2, "online_nodes", WhenEmpty, Num(x.onlineNodes));
  }

  method AppendTotals(b: Buffer, x: Snapshot, ghost f: seq<Members>)
    requires TotalsRows(f, x) && b.Ready() && b.members == f[0]
    modifies b
    ensures b.Ready() && b.members == f[3]
  {
    if x.totalRequests != 0 {
      b.Key("total_requests");
      b.Int(x.totalRequests);
    }
    if x.totalNodes != 0 {
      b.Key("total_nodes");
      b.Int(x.totalNodes);
    }
    if x.onlineNodes != 0 {
      b.Key("online_nodes");
      b.Int(x.onlineNodes);
    }
  }

  ghost predicate LinksRows(f: seq<Members>, x: Snapshot) {
    && |f| == 12
    && Adds(f[3], f[4], x.trustLinks == 0, "trust_links", Num(x.trustLinks))
    && Adds(f[4], f[5], x.uniqueTags == 0, "unique_tags", Num(x.uniqueTags))
    && Adds(f[5], f[6], x.taskExecutors == 0, "task_executors", Num(x.taskExecutors))
  }

  lemma LinksTable(f: seq<Members>, x: Snapshot)
    requires StatsLadder(f, x)
    ensures LinksRows(f, x)
  {
    StatsRow(f, x, 3, "trust_links", WhenEmpty, Num(x.trustLinks));
    StatsRow(f, x, 4, "unique_tags", WhenEmpty, Num(x.uniqueTags));
    StatsRow(f, x, 5, "task_executors", WhenEmpty, Num(x.taskExecutors));
  }

  method AppendLinks(b: Buffer, x: Snapshot, ghost f: seq<Members>)
    requires LinksRows(f, x) && b.Ready() && b.members == f[3]
    modifies b
    ensures b.Ready() && b.members == f[6]
  {
    if x.trustLinks != 0 {
      b.Key("trust_links");
      b.Int(x.trustLinks);
    }
    if x.uniqueTags != 0 {
      b.Key("unique_tags");
      b.Int(x.uniqueTags);
    }
    if x.taskExecutors != 0 {
      b.Key("task_executors");
      b.Int(x.taskExecutors);
    }
  }

  ghost predicate UptimeRows(f: seq<Members>, x: Snapshot) {
    && |f| == 12
    && Adds(f[6], f[7], x.startTime == "", "start_time", Str(x.startTime))
    && Adds(f[7], f[8], Len(x.restartEvents) == 0, "restart_events", x.restartEvents)
    && Adds(f[8], f[9], Len(x.downtimeIntervals) == 0, "downtime_intervals", x.downtimeIntervals)
  }

  lemma UptimeTable(f: seq<Members>, x: Snapshot)
    requires StatsLadder(f, x)
    ensures UptimeRows(f, x)
  {
    StatsRow(f, x, 6, "start_time", WhenEmpty, Str(x.startTime));
    StatsRow(f, x, 7, "restart_events", WhenEmpty, x.restartEvents);
    StatsRow(f, x, 8, "downtime_intervals", WhenEmpty, x.downtimeIntervals);
  }

  method AppendUptime(b: Buffer, x: Snapshot, ghost f: seq<Members>)
    requires UptimeRows(f, x) && b.Ready() && b.members == f[6]
    modifies b
    ensures b.Ready() && b.members == f[9]
  {
    if x.startTime != "" {
      b.Key("start_time");
      b.Text(x.startTime);
    }
    if Len(x.restartEvents) > 0 {
      b.Key("restart_events");
      b.Std(x.restartEvents);
    }
    if Len(x.downtimeIntervals) > 0 {
      b.Key("downtime_intervals");
      b.Std(x.downtimeIntervals);
    }
  }

  ghost predicate ProbesRows(f: seq<Members>, x: Snapshot) {
    && |f| == 12
    && Adds(f[9], f[10], x.lastHeartbeat == 0, "last_heartbeat", Num(x.lastHeartbeat))
    && Adds(f[10], f[11], Len(x.probeStates) == 0, "probe_states", x.probeStates)
  }

  lemma ProbesTable(f: seq<Members>, x: Snapshot)
    requires StatsLadder(f, x)
    ensures ProbesRows(f, x)
  {
    StatsRow(f, x, 9, "last_heartbeat", WhenEmpty, Num(x.lastHeartbeat));
    StatsRow(f, x, 10, "probe_states", WhenEmpty, x.probeStates);
  }

  method AppendProbes(b: Buffer, x: Snapshot, ghost f: seq<Members>)
    requires ProbesRows(f, x) && b.Ready() && b.members == f[9]
    modifies b
    ensures b.Ready() && b.members == f[11]
  {
    if x.lastHeartbeat != 0 {
      b.Key("last_heartbeat");
      b.Int(x.lastHeartbeat);
    }
    if Len(x.probeStates) > 0 {
      b.Key("probe_states");
      b.Std(x.probeStates);
    }
  }

  ghost predicate HistoryRows(f: seq<Members>, x: Snapshot) {
    && |f| == 11
    && Adds(f[0], f[1], Len(x.hourlyHistory) == 0, "hourly_history", x.hourlyHistory)
    && Adds(f[1], f[2], Len(x.dailyHistory) == 0, "daily_history", x.dailyHistory)
  }

  lemma HistoryTable(f: seq<Members>, x: Snapshot)
    requires TailLadder(f, x)
    ensures HistoryRows(f, x)
  {
    TailRow(f, x, 0, "hourly_history", WhenEmpty, x.hourlyHistory);
    TailRow(f, x, 1, "daily_history", WhenEmpty, x.dailyHistory);
  }

  method AppendHistory(b: Buffer, x: Snapshot, ghost f: seq<Members>)
    requires HistoryRows(f, x) && b.Ready() && b.members == f[0]
    modifies b
    ensures b.Ready() && b.members == f[2]
  {
    if Len(x.hourlyHistory) > 0 {
      b.Key("hourly_history");
      b.Std(x.hourlyHistory);
    }
    if Len(x.dailyHistory) > 0 {
      b.Key("daily_history");
      b.Std(x.dailyHistory);
    }
  }

  ghost predicate NetHistoryRows(f: seq<Members>, x: Snapshot) {
    && |f| == 11
    && Adds(f[2], f[3], Len(x.netHourlyHistory) == 0, "net_hourly_history", x.netHourlyHistory)
    && Adds(f[3], f[4], Len(x.netDailyHistory) == 0, "net_daily_history", x.netDailyHistory)
  }

  lemma NetHistoryTable(f: seq<Members>, x: Snapshot)
    requires TailLadder(f, x)
    ensures NetHistoryRows(f, x)
  {
    TailRow(f, x, 2, "net_hourly_history", WhenEmpty, x.netHourlyHistory);
    TailRow(f, x, 3, "net_daily_history", WhenEmpty, x.netDailyHistory);
  }

  method AppendNetHistory(b: Buffer, x: Snapshot, ghost f: seq<Members>)
    requires NetHistoryRows(f, x) && b.Ready() && b.members == f[2]
    modifies b
    ensures b.Ready() && b.members == f[4]
  {
    if Len(x.netHourlyHistory) > 0 {
      b.Key("net_hourly_history");
      b.Std(x.netHourlyHistory);
    }
    if Len(x.netDailyHistory) > 0 {
      b.Key("net_daily_history");
      b.Std(x.netDailyHistory);
    }
  }

  ghost predicate AuditRows(f: seq<Members>, x: Snapshot) {
    && |f| == 11
    && Adds(f[4], f[5], Len(x.auditLog) == 0, "audit_log", x.auditLog)
    && Adds(f[5], f[6], x.idpConfig == Null, "idp_config", x.idpConfig)
    && Adds(f[6], f[7], x.auditExportConfig == Null, "audit_export_config", x.auditExportConfig)
  }

  lemma AuditTable(f: seq<Members>, x: Snapshot)
    requires TailLadder(f, x)
    ensures AuditRows(f, x)
  {
    TailRow(f, x, 4, "audit_log", WhenEmpty, x.auditLog);
    TailRow(f, x, 5, "idp_config", WhenNil, x.idpConfig);
    TailRow(f, x, 6, "audit_export_config", WhenNil, x.auditExportConfig);
  }

  method AppendAudit(b: Buffer, x: Snapshot, ghost f: seq<Members>)
    requires AuditRows(f, x) && b.Ready() && b.members == f[4]
    modifies b
    ensures b.Ready() && b.members == f[7]
  {
    if Len(x.auditLog) > 0 {
      b.Key("audit_log");
      b.Std(x.auditLog);
    }
    if x.idpConfig != Null {
      b.Key("idp_config");
      b.Std(x.idpConfig);
    }
    if x.auditExportConfig != Null {
      b.Key("audit_export_config");
      b.Std(x.auditExportConfig);
    }
  }

  ghost predicate EpochRows(f: seq<Members>, x: Snapshot) {
    && |f| == 11
    && Adds(f[7], f[8], Len(x.rbacPreAssign) == 0, "rbac_pre_assign", x.rbacPreAssign)
    && Adds(f[8], f[9], x.term == 0, "term", Num(x.term))
    && Adds(f[9], f[10], x.checksum == "", "checksum", Str(x.checksum))
  }

  lemma EpochTable(f: seq<Members>, x: Snapshot)
    requires TailLadder(f, x)
    ensures EpochRows(f, x)
  {
    TailRow(f, x, 7, "rbac_pre_assign", WhenEmpty, x.rbacPreAssign);
    TailRow(f, x, 8, "term", WhenEmpty, Num(x.term));
    TailRow(f, x, 9, "checksum", WhenEmpty, Str(x.checksum));
  }

  method AppendEpoch(b: Buffer, x: Snapshot, ghost f: seq<Members>)
    requires EpochRows(f, x) && b.Ready() && b.members == f[7]
    modifies b
    ensures b.Ready() && b.members == f[10]
  {
    if Len(x.rbacPreAssign) > 0 {
      b.Key("rbac_pre_assign");
      b.Std(x.rbacPreAssign);
    }
    if x.term != 0 {
      b.Key("term");
      b.Int(x.term);
    }
    if x.checksum != "" {
      b.Key("checksum");
      b.Text(x.checksum);
    }
  }

  lemma HeadTable(x: Snapshot, start: Members) returns (f: seq<Members>)
    ensures |f| == 11 && f[0] == start && f[10] == start + Kept(HEAD_FIELDS, HeadOf(x))
    ensures CountersRows(f, x) && NodesRows(f, x) && PairsRows(f, x) && InboxesRows(f, x)
  {
    forall k: nat | k < |HEAD_NAMES| ensures Plain(HEAD_NAMES[k]) { HeadNamesPlain(k); }
    f := Climb(start, HEAD_NAMES, HEAD_RULES, HeadOf(x));
    CountersTable(f, x);
    NodesTable(f, x);
    PairsTable(f, x);
    InboxesTable(f, x);
  }

  method AppendHead(b: Buffer, x: Snapshot)
    requires b.Ready()
    modifies b
    ensures b.Ready() && b.members == old(b.members) + Kept(HEAD_FIELDS, HeadOf(x))
  {
    ghost var f := HeadTable(x, b.members);
    AppendCounters(b, x, f);
    AppendNodesField(b, x, f);
    AppendPairs(b, x, f);
    AppendInboxes(b, x, f);
  }

  lemma StatsTable(x: Snapshot, start: Members) returns (f: seq<Members>)
    ensures |f| == 12 && f[0] == start && f[11] == start + Kept(STATS_FIELDS, Stats(x))
    ensures TotalsRows(f, x) && LinksRows(f, x) && UptimeRows(f, x) && ProbesRows(f, x)
  {
    forall k: nat | k < |STATS_NAMES| ensures Plain(STATS_NAMES[k]) { StatsNamesPlain(k); }
    f := Climb(start, STATS_NAMES, STATS_RULES, Stats(x));
    TotalsTable(f, x);
    LinksTable(f, x);
    UptimeTable(f, x);
    ProbesTable(f, x);
  }

  method AppendStats(b: Buffer, x: Snapshot)
    requires b.Ready()
    modifies b
    ensures b.Ready() && b.members == old(b.members) + Kept(STATS_FIELDS, Stats(x))
  {
    ghost var f := StatsTable(x, b.members);
    AppendTotals(b, x, f);
    AppendLinks(b, x, f);
    AppendUptime(b, x, f);
    AppendProbes(b, x, f);
  }

  lemma TailTable(x: Snapshot, start: Members) returns (f: seq<Members>)
    ensures |f| == 11 && f[0] == start && f[10] == start + Kept(TAIL_FIELDS, Tail(x))
    ensures HistoryRows(f, x) && NetHistoryRows(f, x) && AuditRows(f, x) && EpochRows(f, x)
  {
    forall k: nat | k < |TAIL_NAMES| ensures Plain(TAIL_NAMES[k]) { TailNamesPlain(k); }
    f := Climb(start, TAIL_NAMES, TAIL_RULES, Tail(x));
    HistoryTable(f, x);
    NetHistoryTable(f, x);
    AuditTable(f, x);
    EpochTable(f, x);
  }

  method AppendTail(b: Buffer, x: Snapshot)
    requires b.Ready()
    modifies b
    ensures b.Ready() && b.members == old(b.members) + Kept(TAIL_FIELDS, Tail(x))
  {
    ghost var f := TailTable(x, b.members);
    AppendHistory(b, x, f);
    AppendNetHistory(b, x, f);
    AppendAudit(b, x, f);
    AppendEpoch(b, x, f);
  }

  /** The thirty-one blocks print the struct-tag encoding. */
  method AppendSnapshot(dst: string, x: Snapshot) returns (r: string)
    ensures r == dst + Encode(x)
  {
    var b := new Buffer(dst);
    AppendHead(b, x);
    AppendStats(b, x);
    AppendTail(b, x);
    KeptParts(HeadOf(x), Stats(x), Tail(x));
    assert [] + Kept(HEAD_FIELDS, HeadOf(x))
           == Kept(HEAD_FIELDS, HeadOf(x));
    r := b.Close();
  }

  // --- the standard encoder -------------------------------------------------------------------------------

  /** A map, its keys sorted. */
  method StdIdx(m: map<string, nat>) returns (text: string)
    ensures text == Print(IdxJson(m))
  {
    var j := map k | k in m :: Num(m[k]);
    assert j.Keys == m.Keys;
    var keys := SortKeys(m.Keys);
    ObjOfListing(j, keys);
    text := Print(Obj(Pairs(keys, j)));
  }

  /** Every field but the node map, which marshals itself, and the sorted index. */
  method EncodeFields(ws: seq<Json>, fs: seq<Field>) returns (texts: seq<string>, empty: seq<bool>)
    requires |ws| == |fs|
    ensures |texts| == |empty| == |ws|
    ensures forall i :: 0 <= i < |ws| ==> texts[i] == Print(ws[i]) && (empty[i] <==> Omitted(fs[i].rule, ws[i]))
  {
    texts, empty := [], [];
    while |texts| < |ws|
      invariant |texts| == |empty| <= |ws|
      invariant forall i :: 0 <= i < |texts| ==> texts[i] == Print(ws[i]) && (empty[i] <==> Omitted(fs[i].rule, ws[i]))
    {
      var i := |texts|;
      texts, empty := texts + [Print(ws[i])], empty + [Omitted(fs[i].rule, ws[i])];
    }
  }

  lemma HeadAt(x: Snapshot, nodes: Json, idx: Json)
    ensures Head(x, nodes, idx) == Head(x, Null, Null)[3 := nodes][6 := idx]
    ensures HEAD_FIELDS[3].rule == Never && HEAD_FIELDS[6].rule == WhenEmpty
  {
  }

  lemma ListingAt(x: Snapshot, nodes: Json, idx: Json)
    ensures Listing(x, nodes, idx) == Listing(x, Null, Null)[3 := nodes][6 := idx]
    ensures SNAPSHOT_FIELDS[3].rule == Never && SNAPSHOT_FIELDS[6].rule == WhenEmpty
  {
    HeadAt(x, nodes, idx);
  }

  /** The standard encoder walks the tag table. */
  method EncodeStd(x: Snapshot) returns (r: string)
    ensures r == Encode(x)
  {
    ListingAt(x, NodesJson(x.nodes), IdxJson(x.pubKeyIdx));
    var texts, empty := EncodeFields(Listing(x, Null, Null), SNAPSHOT_FIELDS);
    var nodes := AppendNodes("", x.nodes);
    var idx := StdIdx(x.pubKeyIdx);
    IdxEmpty(x.pubKeyIdx);
    r := EncodeMaps(texts, empty, nodes, idx, x.pubKeyIdx == map[], Listing(x, Null, Null),
                    NodesJson(x.nodes), IdxJson(x.pubKeyIdx));
  }

  method EncodeMaps(texts: seq<string>, empty: seq<bool>, nodes: string, idx: string, idxEmpty: bool,
                    ghost ws: seq<Json>, ghost nodesJson: Json, ghost idxJson: Json)
    returns (r: string)
    requires |texts| == |empty| == |ws| == 31
    requires forall i :: 0 <= i < 31 ==>
               texts[i] == Print(ws[i]) && (empty[i] <==> Omitted(SNAPSHOT_FIELDS[i].rule, ws[i]))
    requires nodes == Print(nodesJson) && idx == Print(idxJson) && (idxEmpty <==> Empty(idxJson))
    requires SNAPSHOT_FIELDS[3].rule == Never && SNAPSHOT_FIELDS[6].rule == WhenEmpty
    ensures r == Print(Obj(Kept(SNAPSHOT_FIELDS, ws[3 := nodesJson][6 := idxJson])))
  {
    r := EncodeStruct(SNAPSHOT_FIELDS, texts[3 := nodes][6 := idx], empty[3 := false][6 := idxEmpty],
                      ws[3 := nodesJson][6 := idxJson]);
  }

  // --- the file ---------------------------------------------------------------------------------------------

  /** The save: the hand-written body, then the trailer in place of its last brace. */
  method SaveFile(x: Snapshot, hash: string -> string) returns (file: string)
    ensures file == File(x, hash)
  {
    var body := AppendSnapshot("", x.(checksum := ""));
    assert body == Encode(x.(checksum := ""));
    if body == "" { return ""; }
    file := body[..|body| - 1] + ",\"checksum\":\"" + hash(body) + "\"}";
  }

  /** The load: the standard encoder's bytes must hash to the checksum. */
  method LoadFile(file: string, hash: string -> string) returns (x: Option<Snapshot>)
    ensures x == Load(file, hash)
  {
    x := Decode(file);
    if x.None? { return; }
    var saved := x.value.checksum;
    if saved != "" {
      var body := EncodeStd(x.value.(checksum := ""));
      if hash(body) != saved { return None; }
    }
  }
}
