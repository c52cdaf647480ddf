/** A node's record in the snapshot: its fields in order, the empty ones left out, and
    the node read back from them. */
module NodeRecord {
  import opened Options
  import opened Json
  import opened Records
  import opened Printers

  // --- node records --------------------------------------------------------------------------------

  datatype SnapshotNode = SnapshotNode(
    id: nat, owner: string, publicKey: string, realAddr: string, networks: Slice<nat>, isPublic: bool,
    lastSeen: string, hostname: string, tags: Slice<string>, taskExec: bool, lanAddrs: Slice<string>,
    keyCreated: string, keyRotated: string, keyRotCount: int, keyExpires: string, externalId: string,
    version: string, relayOnly: bool, badge: string, badgeSig: string, verificationProvider: string,
    verifiedAt: string, recoveryCommitment: string, recoveryProvider: string,
    recoveryConsumedNonce: string, recoveryConsumedExp: string)

  const NODE_NAMES: seq<string> := [
    "id", "owner", "public_key", "real_addr", "networks", "public", "last_seen", "hostname", "tags", "task_exec",
    "lan_addrs", "key_created", "key_rotated", "key_rot_count", "key_expires", "external_id", "version",
    "relay_only", "badge", "badge_sig", "verification_provider", "verified_at", "recovery_commitment",
    "recovery_provider", "recovery_consumed_nonce", "recovery_consumed_exp"]

  /** Only the id, the public key and the networks are always written. */
  const NODE_RULES: seq<Rule> := [
    Never, WhenEmpty, Never, WhenEmpty, Never, WhenEmpty, WhenEmpty, WhenEmpty, WhenEmpty,
    WhenEmpty, WhenEmpty, WhenEmpty, WhenEmpty, WhenEmpty, WhenEmpty, WhenEmpty, WhenEmpty, WhenEmpty,
    WhenEmpty, WhenEmpty, WhenEmpty, WhenEmpty, WhenEmpty, WhenEmpty, WhenEmpty, WhenEmpty]

  const NODE_FIELDS: seq<Field> := Fields(NODE_NAMES, NODE_RULES)

  function FlagJson(b: bool): Json {
    if b then True else False
  }

  function NodeValues(n: SnapshotNode): (vs: seq<Json>)
    ensures |vs| == 26
  {
    [Num(n.id), Str(n.owner), Str(n.publicKey), Str(n.realAddr), NatsJson(n.networks), FlagJson(n.isPublic),
     Str(n.lastSeen), Str(n.hostname), TextsJson(n.tags), FlagJson(n.taskExec), TextsJson(n.lanAddrs),
     Str(n.keyCreated), Str(n.keyRotated), Num(n.keyRotCount), Str(n.keyExpires), Str(n.externalId),
     Str(n.version), FlagJson(n.relayOnly), Str(n.badge), Str(n.badgeSig), Str(n.verificationProvider),
     Str(n.verifiedAt), Str(n.recoveryCommitment), Str(n.recoveryProvider),
     Str(n.recoveryConsumedNonce), Str(n.recoveryConsumedExp)]
  }

  function TextOf(j: Json): string {
    if j.Str? then j.s else ""
  }

  function IntOf(j: Json): int {
    if j.Num? then j.n else 0
  }

  function NatOf(j: Json): nat {
    if j.Num? && j.n >= 0 then j.n else 0
  }

  function NatsOf(j: Json): Slice<nat> {
    if j.Arr? then Of(seq(|j.items|, i requires 0 <= i < |j.items| => NatOf(j.items[i]))) else Nil
  }

  function TextsOf(j: Json): Slice<string> {
    if j.Arr? then Of(seq(|j.items|, i requires 0 <= i < |j.items| => TextOf(j.items[i]))) else Nil
  }

  function NodeOf(vs: seq<Json>): SnapshotNode
    requires |vs| == 26
  {
    SnapshotNode(NatOf(vs[0]), TextOf(vs[1]), TextOf(vs[2]), TextOf(vs[3]), NatsOf(vs[4]), vs[5].True?,
      TextOf(vs[6]), TextOf(vs[7]), TextsOf(vs[8]), vs[9].True?, TextsOf(vs[10]), TextOf(vs[11]), TextOf(vs[12]),
      IntOf(vs[13]), TextOf(vs[14]), TextOf(vs[15]), TextOf(vs[16]), vs[17].True?, TextOf(vs[18]), TextOf(vs[19]),
      TextOf(vs[20]), TextOf(vs[21]), TextOf(vs[22]), TextOf(vs[23]), TextOf(vs[24]), TextOf(vs[25]))
  }

  /** An empty slice in a dropped field comes back nil. */
  function Tidy(n: SnapshotNode): SnapshotNode {
    n.(tags := if n.tags == Of([]) then Nil else n.tags,
       lanAddrs := if n.lanAddrs == Of([]) then Nil else n.lanAddrs)
  }

  lemma NodeNamesDistinct()
    ensures Distinct(NODE_FIELDS)
  {
    assert forall i, j :: 0 <= i < j < |NODE_NAMES| ==> NODE_NAMES[i] != NODE_NAMES[j];
  }

  lemma SliceRoundTrip(a: Slice<nat>, b: Slice<string>)
    ensures NatsOf(NatsJson(a)) == a && TextsOf(TextsJson(b)) == b
  {
    if a.Of? { assert NatsOf(NatsJson(a)).items == a.items; }
    if b.Of? { assert TextsOf(TextsJson(b)).items == b.items; }
  }

  /** Scalars read the same from both. */
  ghost predicate ReadsAs(c: seq<Json>, vs: seq<Json>) {
    && |c| == |vs|
    && forall i :: 0 <= i < |vs| ==>
         && TextOf(c[i]) == TextOf(vs[i]) && IntOf(c[i]) == IntOf(vs[i])
         && NatOf(c[i]) == NatOf(vs[i]) && c[i].True? == vs[i].True?
  }

  /** A dropped scalar reads as its zero value. */
  lemma CanonReadsAs(fs: seq<Field>, vs: seq<Json>)
    requires |fs| == |vs|
    ensures ReadsAs(Canon(fs, vs), vs)
  {
  }

  lemma NodeOfReadsAs(c: seq<Json>, vs: seq<Json>)
    requires |vs| == 26 && ReadsAs(c, vs)
    ensures NodeOf(c) == NodeOf(vs).(networks := NatsOf(c[4]), tags := TextsOf(c[8]), lanAddrs := TextsOf(c[10]))
  {
  }

  lemma NodeOfValues(n: SnapshotNode)
    ensures NodeOf(NodeValues(n)) == n
  {
    SliceRoundTrip(n.networks, n.tags);
    SliceRoundTrip(n.networks, n.lanAddrs);
  }

  lemma TagsCarried(s: Slice<string>)
    ensures TextsOf(if Omitted(WhenEmpty, TextsJson(s)) then Null else TextsJson(s)) == if s == Of([]) then Nil else s
  {
    SliceRoundTrip(Nil, s);
  }

  lemma NodeOfCanon(n: SnapshotNode)
    ensures NodeOf(Canon(NODE_FIELDS, NodeValues(n))) == Tidy(n)
  {
    var c := Canon(NODE_FIELDS, NodeValues(n));
    CanonReadsAs(NODE_FIELDS, NodeValues(n));
    NodeOfReadsAs(c, NodeValues(n));
    NodeOfValues(n);
    SliceRoundTrip(n.networks, n.tags);
    TagsCarried(n.tags);
    TagsCarried(n.lanAddrs);
    assert NODE_RULES[4] == Never && NODE_RULES[8] == WhenEmpty && NODE_RULES[10] == WhenEmpty;
  }

  /** A node, which may be nil. */
  function NodeJson(p: Option<SnapshotNode>): Json {
    if p.None? then Null else Obj(Kept(NODE_FIELDS, NodeValues(p.value)))
  }

  function PtrOf(j: Json): Option<SnapshotNode> {
    if j.Obj? then Some(NodeOf(Fill(NODE_FIELDS, j.members))) else None
  }

  function TidyPtr(p: Option<SnapshotNode>): Option<SnapshotNode> {
    if p.None? then None else Some(Tidy(p.value))
  }

  /** A node comes back from its record, with empty optional slices nil. */
  lemma NodeRoundTrip(p: Option<SnapshotNode>)
    ensures PtrOf(NodeJson(p)) == TidyPtr(p)
  {
    if p.Some? {
      NodeNamesDistinct();
      FillKept(NODE_FIELDS, NodeValues(p.value));
      NodeOfCanon(p.value);
    }
  }

  /** And the node read back has the same record. */
  lemma NodeJsonTidy(p: Option<SnapshotNode>)
    ensures NodeJson(TidyPtr(p)) == NodeJson(p)
  {
    if p.Some? {
      var vs, t := NodeValues(p.value), Tidy(p.value);
      var mid := vs[8 := TextsJson(t.tags)];
      NodeValuesTidy(p.value);
      assert NODE_RULES[8] == WhenEmpty && NODE_RULES[10] == WhenEmpty;
      KeptSwap(NODE_FIELDS, vs, 8, TextsJson(t.tags));
      KeptSwap(NODE_FIELDS, mid, 10, TextsJson(t.lanAddrs));
    }
  }

  lemma NodeValuesTidy(n: SnapshotNode)
    ensures NodeValues(Tidy(n)) == NodeValues(n)[8 := TextsJson(Tidy(n).tags)][10 := TextsJson(Tidy(n).lanAddrs)]
    ensures NodeValues(n)[8] == TextsJson(n.tags) && NodeValues(n)[10] == TextsJson(n.lanAddrs)
  {
  }

  lemma NodeNamesPlain1()
    ensures Plain("id") && Plain("owner") && Plain("public_key") && Plain("real_addr") && Plain("networks") &&
            Plain("public") && Plain("last_seen")
  {
  }

  lemma NodeNamesPlain2()
    ensures Plain("hostname") && Plain("tags") && Plain("task_exec") && Plain("lan_addrs") &&
            Plain("key_created") && Plain("key_rotated") && Plain("key_rot_count")
  {
  }

  lemma NodeNamesPlain3()
    ensures Plain("key_expires") && Plain("external_id") && Plain("version") && Plain("relay_only") &&
            Plain("badge") && Plain("badge_sig") && Plain("verification_provider")
  {
  }

  lemma NodeNamesPlain4()
    ensures Plain("verified_at") && Plain("recovery_commitment") && Plain("recovery_provider") &&
            Plain("recovery_consumed_nonce") && Plain("recovery_consumed_exp")
  {
  }

  lemma NodeNamesPlain(i: nat)
    requires i < |NODE_NAMES|
    ensures Plain(NODE_NAMES[i])
  {
    NodeNamesPlain1();
    NodeNamesPlain2();
    NodeNamesPlain3();
    NodeNamesPlain4();
  }

  // --- the hand-written encoder -----------------------------------------------------------------

  ghost predicate NodeLadder(f: seq<Members>, n: SnapshotNode) {
    Ladder(f, NODE_NAMES, NODE_RULES, NodeValues(n))
  }

  /** One row of the tag table. */
  lemma Row(f: seq<Members>, n: SnapshotNode, k: nat, name: string, rule: Rule, v: Json)
    requires NodeLadder(f, n) && k < 26 && NODE_NAMES[k] == name && NODE_RULES[k] == rule && NodeValues(n)[k] == v
    ensures |f| == 27 && Adds(f[k], f[k + 1], Omitted(rule, v), name, v)
  {
  }

  ghost predicate IdentityRows(f: seq<Members>, n: SnapshotNode) {
    && |f| == 27
    && Adds(f[0], f[1], false, "id", Num(n.id))
    && Adds(f[1], f[2], n.owner == "", "owner", Str(n.owner))
    && Adds(f[2], f[3], false, "public_key", Str(n.publicKey))
  }

  lemma IdentityTable(f: seq<Members>, n: SnapshotNode)
    requires NodeLadder(f, n)
    ensures IdentityRows(f, n)
  {
    Row(f, n, 0, "id", Never, Num(n.id));
    Row(f, n, 1, "owner", WhenEmpty, Str(n.owner));
    Row(f, n, 2, "public_key", Never, Str(n.publicKey));
  }

  method AppendIdentity(b: Buffer, n: SnapshotNode, ghost f: seq<Members>)
    requires IdentityRows(f, n) && b.Ready() && b.members == f[0]
    modifies b
    ensures b.Ready() && b.members == f[3]
  {
    b.Key("id");
    b.Int(n.id);
    if n.owner != "" {
      b.Key("owner");
      b.Text(n.owner);
    }
    b.Key("public_key");
    b.Text(n.publicKey);
  }

  ghost predicate AddressRows(f: seq<Members>, n: SnapshotNode) {
    && |f| == 27
    && Adds(f[3], f[4], n.realAddr == "", "real_addr", Str(n.realAddr))
    && Adds(f[4], f[5], false, "networks", NatsJson(n.networks))
    && Adds(f[5], f[6], !n.isPublic, "public", True)
  }

  lemma AddressTable(f: seq<Members>, n: SnapshotNode)
    requires NodeLadder(f, n)
    ensures AddressRows(f, n)
  {
    Row(f, n, 3, "real_addr", WhenEmpty, Str(n.realAddr));
    Row(f, n, 4, "networks", Never, NatsJson(n.networks));
    Row(f, n, 5, "public", WhenEmpty, FlagJson(n.isPublic));
  }

  method AppendAddress(b: Buffer, n: SnapshotNode, ghost f: seq<Members>)
    requires AddressRows(f, n) && b.Ready() && b.members == f[3]
    modifies b
    ensures b.Ready() && b.members == f[6]
  {
    if n.realAddr != "" {
      b.Key("real_addr");
      b.Text(n.realAddr);
    }
    b.Key("networks");
    b.Nats(n.networks);
    if n.isPublic {
      b.Key("public");
      b.Yes();
    }
  }

  ghost predicate PresenceRows(f: seq<Members>, n: SnapshotNode) {
    && |f| == 27
    && Adds(f[6], f[7], n.lastSeen == "", "last_seen", Str(n.lastSeen))
    && Adds(f[7], f[8], n.hostname == "", "hostname", Str(n.hostname))
    && Adds(f[8], f[9], n.tags.Nil? || n.tags.items == [], "tags", TextsJson(n.tags))
  }

  lemma PresenceTable(f: seq<Members>, n: SnapshotNode)
    requires NodeLadder(f, n)
    ensures PresenceRows(f, n)
  {
    Row(f, n, 6, "last_seen", WhenEmpty, Str(n.lastSeen));
    Row(f, n, 7, "hostname", WhenEmpty, Str(n.hostname));
    Row(f, n, 8, "tags", WhenEmpty, TextsJson(n.tags));
  }

  method AppendPresence(b: Buffer, n: SnapshotNode, ghost f: seq<Members>)
    requires PresenceRows(f, n) && b.Ready() && b.members == f[6]
    modifies b
    ensures b.Ready() && b.members == f[9]
  {
    if n.lastSeen != "" {
      b.Key("last_seen");
      b.Text(n.lastSeen);
    }
    if n.hostname != "" {
      b.Key("hostname");
      b.Text(n.hostname);
    }
    if n.tags.Of? && |n.tags.items| > 0 {
      b.Key("tags");
      b.Texts(n.tags);
    }
  }

  ghost predicate TasksRows(f: seq<Members>, n: SnapshotNode) {
    && |f| == 27
    && Adds(f[9], f[10], !n.taskExec, "task_exec", True)
    && Adds(f[10], f[11], n.lanAddrs.Nil? || n.lanAddrs.items == [], "lan_addrs", TextsJson(n.lanAddrs))
  }

  lemma TasksTable(f: seq<Members>, n: SnapshotNode)
    requires NodeLadder(f, n)
    ensures TasksRows(f, n)
  {
    Row(f, n, 9, "task_exec", WhenEmpty, FlagJson(n.taskExec));
    Row(f, n, 10, "lan_addrs", WhenEmpty, TextsJson(n.lanAddrs));
  }

  method AppendTasks(b: Buffer, n: SnapshotNode, ghost f: seq<Members>)
    requires TasksRows(f, n) && b.Ready() && b.members == f[9]
    modifies b
    ensures b.Ready() && b.members == f[11]
  {
    if n.taskExec {
      b.Key("task_exec");
      b.Yes();
    }
    if n.lanAddrs.Of? && |n.lanAddrs.items| > 0 {
      b.Key("lan_addrs");
      b.Texts(n.lanAddrs);
    }
  }

  ghost predicate KeyDatesRows(f: seq<Members>, n: SnapshotNode) {
    && |f| == 27
    && Adds(f[11], f[12], n.keyCreated == "", "key_created", Str(n.keyCreated))
    && Adds(f[12], f[13], n.keyRotated == "", "key_rotated", Str(n.keyRotated))
  }

  lemma KeyDatesTable(f: seq<Members>, n: SnapshotNode)
    requires NodeLadder(f, n)
    ensures KeyDatesRows(f, n)
  {
    Row(f, n, 11, "key_created", WhenEmpty, Str(n.keyCreated));
    Row(f, n, 12, "key_rotated", WhenEmpty, Str(n.keyRotated));
  }

  method AppendKeyDates(b: Buffer, n: SnapshotNode, ghost f: seq<Members>)
    requires KeyDatesRows(f, n) && b.Ready() && b.members == f[11]
    modifies b
    ensures b.Ready() && b.members == f[13]
  {
    if n.keyCreated != "" {
      b.Key("key_created");
      b.Text(n.keyCreated);
    }
    if n.keyRotated != "" {
      b.Key("key_rotated");
      b.Text(n.keyRotated);
    }
  }

  ghost predicate KeyExpiryRows(f: seq<Members>, n: SnapshotNode) {
    && |f| == 27
    && Adds(f[13], f[14], n.keyRotCount == 0, "key_rot_count", Num(n.keyRotCount))
    && Adds(f[14], f[15], n.keyExpires == "", "key_expires", Str(n.keyExpires))
  }

  lemma KeyExpiryTable(f: seq<Members>, n: SnapshotNode)
    requires NodeLadder(f, n)
    ensures KeyExpiryRows(f, n)
  {
    Row(f, n, 13, "key_rot_count", WhenEmpty, Num(n.keyRotCount));
    Row(f, n, 14, "key_expires", WhenEmpty, Str(n.keyExpires));
  }

  method AppendKeyExpiry(b: Buffer, n: SnapshotNode, ghost f: seq<Members>)
    requires KeyExpiryRows(f, n) && b.Ready() && b.members == f[13]
    modifies b
    ensures b.Ready() && b.members == f[15]
  {
    if n.keyRotCount != 0 {
      b.Key("key_rot_count");
      b.Int(n.keyRotCount);
    }
    if n.keyExpires != "" {
      b.Key("key_expires");
      b.Text(n.keyExpires);
    }
  }

  ghost predicate VersionRows(f: seq<Members>, n: SnapshotNode) {
    && |f| == 27
    && Adds(f[15], f[16], n.externalId == "", "external_id", Str(n.externalId))
    && Adds(f[16], f[17], n.version == "", "version", Str(n.version))
    && Adds(f[17], f[18], !n.relayOnly, "relay_only", True)
  }

  lemma VersionTable(f: seq<Members>, n: SnapshotNode)
    requires NodeLadder(f, n)
    ensures VersionRows(f, n)
  {
    Row(f, n, 15, "external_id", WhenEmpty, Str(n.externalId));
    Row(f, n, 16, "version", WhenEmpty, Str(n.version));
    Row(f, n, 17, "relay_only", WhenEmpty, FlagJson(n.relayOnly));
  }

  method AppendVersion(b: Buffer, n: SnapshotNode, ghost f: seq<Members>)
    requires VersionRows(f, n) && b.Ready() && b.members == f[15]
    modifies b
    ensures b.Ready() && b.members == f[18]
  {
    if n.externalId != "" {
      b.Key("external_id");
      b.Text(n.externalId);
    }
    if n.version != "" {
      b.Key("version");
      b.Text(n.version);
    }
    if n.relayOnly {
      b.Key("relay_only");
      b.Yes();
    }
  }

  ghost predicate BadgeRows(f: seq<Members>, n: SnapshotNode) {
    && |f| == 27
    && Adds(f[18], f[19], n.badge == "", "badge", Str(n.badge))
    && Adds(f[19], f[20], n.badgeSig == "", "badge_sig", Str(n.badgeSig))
  }

  lemma BadgeTable(f: seq<Members>, n: SnapshotNode)
    requires NodeLadder(f, n)
    ensures BadgeRows(f, n)
  {
    Row(f, n, 18, "badge", WhenEmpty, Str(n.badge));
    Row(f, n, 19, "badge_sig", WhenEmpty, Str(n.badgeSig));
  }

  method AppendBadge(b: Buffer, n: SnapshotNode, ghost f: seq<Members>)
    requires BadgeRows(f, n) && b.Ready() && b.members == f[18]
    modifies b
    ensures b.Ready() && b.members == f[20]
  {
    if n.badge != "" {
      b.Key("badge");
      b.Text(n.badge);
    }
    if n.badgeSig != "" {
      b.Key("badge_sig");
      b.Text(n.badgeSig);
    }
  }

  ghost predicate VerificationRows(f: seq<Members>, n: SnapshotNode) {
    && |f| == 27
    && Adds(f[20], f[21], n.verificationProvider == "", "verification_provider", Str(n.verificationProvider))
    && Adds(f[21], f[22], n.verifiedAt == "", "verified_at", Str(n.verifiedAt))
    && Adds(f[22], f[23], n.recoveryCommitment == "", "recovery_commitment", Str(n.recoveryCommitment))
  }

  lemma VerificationTable(f: seq<Members>, n: SnapshotNode)
    requires NodeLadder(f, n)
    ensures VerificationRows(f, n)
  {
    Row(f, n, 20, "verification_provider", WhenEmpty, Str(n.verificationProvider));
    Row(f, n, 21, "verified_at", WhenEmpty, Str(n.verifiedAt));
    Row(f, n, 22, "recovery_commitment", WhenEmpty, Str(n.recoveryCommitment));
  }

  method AppendVerification(b: Buffer, n: SnapshotNode, ghost f: seq<Members>)
    requires VerificationRows(f, n) && b.Ready() && b.members == f[20]
    modifies b
    ensures b.Ready() && b.members == f[23]
  {
    if n.verificationProvider != "" {
      b.Key("verification_provider");
      b.Text(n.verificationProvider);
    }
    if n.verifiedAt != "" {
      b.Key("verified_at");
      b.Text(n.verifiedAt);
    }
    if n.recoveryCommitment != "" {
      b.Key("recovery_commitment");
      b.Text(n.recoveryCommitment);
    }
  }

  ghost predicate RecoveryRows(f: seq<Members>, n: SnapshotNode) {
    && |f| == 27
    && Adds(f[23], f[24], n.recoveryProvider == "", "recovery_provider", Str(n.recoveryProvider))
    && Adds(f[24], f[25], n.recoveryConsumedNonce == "", "recovery_consumed_nonce", Str(n.recoveryConsumedNonce))
    && Adds(f[25], f[26], n.recoveryConsumedExp == "", "recovery_consumed_exp", Str(n.recoveryConsumedExp))
  }

  lemma RecoveryTable(f: seq<Members>, n: SnapshotNode)
    requires NodeLadder(f, n)
    ensures RecoveryRows(f, n)
  {
    Row(f, n, 23, "recovery_provider", WhenEmpty, Str(n.recoveryProvider));
    Row(f, n, 24, "recovery_consumed_nonce", WhenEmpty, Str(n.recoveryConsumedNonce));
    Row(f, n, 25, "recovery_consumed_exp", WhenEmpty, Str(n.recoveryConsumedExp));
  }

  method AppendRecovery(b: Buffer, n: SnapshotNode, ghost f: seq<Members>)
    requires RecoveryRows(f, n) && b.Ready() && b.members == f[23]
    modifies b
    ensures b.Ready() && b.members == f[26]
  {
    if n.recoveryProvider != "" {
      b.Key("recovery_provider");
      b.Text(n.recoveryProvider);
    }
    if n.recoveryConsumedNonce != "" {
      b.Key("recovery_consumed_nonce");
      b.Text(n.recoveryConsumedNonce);
    }
    if n.recoveryConsumedExp != "" {
      b.Key("recovery_consumed_exp");
      b.Text(n.recoveryConsumedExp);
    }
  }

  ghost predicate ContactRows(f: seq<Members>, n: SnapshotNode) {
    IdentityRows(f, n) && AddressRows(f, n) && PresenceRows(f, n) && TasksRows(f, n)
  }

  method AppendContact(b: Buffer, n: SnapshotNode, ghost f: seq<Members>)
    requires ContactRows(f, n) && b.Ready() && b.members == f[0]
    modifies b
    ensures b.Ready() && b.members == f[11]
  {
    AppendIdentity(b, n, f);
    AppendAddress(b, n, f);
    AppendPresence(b, n, f);
    AppendTasks(b, n, f);
  }

  ghost predicate KeysRows(f: seq<Members>, n: SnapshotNode) {
    KeyDatesRows(f, n) && KeyExpiryRows(f, n) && VersionRows(f, n)
  }

  method AppendKeys(b: Buffer, n: SnapshotNode, ghost f: seq<Members>)
    requires KeysRows(f, n) && b.Ready() && b.members == f[11]
    modifies b
    ensures b.Ready() && b.members == f[18]
  {
    AppendKeyDates(b, n, f);
    AppendKeyExpiry(b, n, f);
    AppendVersion(b, n, f);
  }

  ghost predicate TrustRows(f: seq<Members>, n: SnapshotNode) {
    BadgeRows(f, n) && VerificationRows(f, n) && RecoveryRows(f, n)
  }

  method AppendTrust(b: Buffer, n: SnapshotNode, ghost f: seq<Members>)
    requires TrustRows(f, n) && b.Ready() && b.members == f[18]
    modifies b
    ensures b.Ready() && b.members == f[26]
  {
    AppendBadge(b, n, f);
    AppendVerification(b, n, f);
    AppendRecovery(b, n, f);
  }

  lemma NodeTable(n: SnapshotNode) returns (f: seq<Members>)
    ensures ContactRows(f, n) && KeysRows(f, n) && TrustRows(f, n)
    ensures f[0] == [] && f[26] == Kept(NODE_FIELDS, NodeValues(n))
  {
    forall k: nat | k < |NODE_NAMES| ensures Plain(NODE_NAMES[k]) { NodeNamesPlain(k); }
    f := Climb([], NODE_NAMES, NODE_RULES, NodeValues(n));
    assert [] + Kept(NODE_FIELDS, NodeValues(n)) == Kept(NODE_FIELDS, NodeValues(n));
    IdentityTable(f, n);
    AddressTable(f, n);
    PresenceTable(f, n);
    TasksTable(f, n);
    KeyDatesTable(f, n);
    KeyExpiryTable(f, n);
    VersionTable(f, n);
    BadgeTable(f, n);
    VerificationTable(f, n);
    RecoveryTable(f, n);
  }

  /** The twenty-six blocks print the record the tag table describes, null for a nil node. */
  method AppendSnapshotNode(dst: string, p: Option<SnapshotNode>) returns (r: string)
    ensures r == dst + Print(NodeJson(p))
  {
    if p.None? { return dst + "null"; }
    ghost var f := NodeTable(p.value);
    var b := new Buffer(dst);
    AppendContact(b, p.value, f);
    AppendKeys(b, p.value, f);
    AppendTrust(b, p.value, f);
    r := b.Close();
  }
}
