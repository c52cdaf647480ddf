/** The write-ahead log file: length-prefixed records, the size cap, and replay of a
    file that ends in the middle of a record. */
module WalFile {

  type byte = b: nat | b < 256
  type bytes = seq<byte>

  const MAX_WAL: nat := 0x1000_0000   // 256 MiB
  const MAX_ENTRY: nat := 0x10_0000   // 1 MiB
  const WORD: nat := 0x1_0000_0000
  const SYNC_BATCH: nat := 200

  // --- little-endian lengths -------------------------------------------------------------

  function PutUint32(n: nat): (r: bytes)
    requires n < WORD
    ensures |r| == 4
  {
    [n % 256, n / 256 % 256, n / 65536 % 256, n / 16777216]
  }

  function Uint32(b: bytes): (r: nat)
    requires |b| == 4
    ensures r < WORD
  {
    var x: nat, y: nat, z: nat, w: nat := b[0], b[1], b[2], b[3];
    x + 256 * y + 65536 * z + 16777216 * w
  }

  lemma Uint32RoundTrip(n: nat)
    requires n < WORD
    ensures Uint32(PutUint32(n)) == n
  {
    var a, b, c := n / 256, n / 65536, n / 16777216;
    assert b == a / 256 && c == b / 256;
    assert n == 256 * a + n % 256 && a == 256 * b + a % 256 && b == 256 * c + b % 256;
  }

  // --- records ---------------------------------------------------------------------------

  function Frame(data: bytes): (r: bytes)
    requires |data| < WORD
    ensures |r| == 4 + |data|
  {
    PutUint32(|data|) + data
  }

  ghost predicate Writable(entries: seq<bytes>) {
    forall i :: 0 <= i < |entries| ==> |entries[i]| < WORD
  }

  /** The file after appending `entries` to an empty log. */
  ghost function Contents(entries: seq<bytes>): bytes
    requires Writable(entries)
    decreases |entries|
  {
    if entries == [] then [] else Frame(entries[0]) + Contents(entries[1..])
  }

  /** Where reading a file ends: a clean or torn end, or a length over the limit. */
  datatype Reading = Reading(entries: seq<bytes>, tooLarge: bool)

  function Read(file: bytes): Reading
    decreases |file|
  {
    if |file| < 4 then Reading([], false)
    else
      var length := Uint32(file[..4]);
      if length > MAX_ENTRY then Reading([], true)
      else if |file| - 4 < length then Reading([], false)
      else
        var tail := Read(file[4 + length..]);
        Reading([file[4..4 + length]] + tail.entries, tail.tooLarge)
  }

  lemma ReadStep(file: bytes, length: nat)
    requires |file| >= 4 && Uint32(file[..4]) == length <= MAX_ENTRY && 4 + length <= |file|
    ensures Read(file).entries == [file[4..4 + length]] + Read(file[4 + length..]).entries
    ensures Read(file).tooLarge == Read(file[4 + length..]).tooLarge
  {
  }

  lemma Assoc(a: seq<bytes>, b: seq<bytes>, c: seq<bytes>)
    ensures a + (b + c) == a + b + c
  {
  }

  /** What one turn of the replay loop finds. */
  datatype Record = Ended | Oversize | Whole(data: bytes, next: nat)

  ghost predicate Continues(r: Reading, data: bytes, tail: Reading) {
    r == Reading([data] + tail.entries, tail.tooLarge)
  }

  lemma BytesAssoc(a: bytes, b: bytes, c: bytes)
    ensures a + (b + c) == a + b + c
  {
  }

  /** Fewer bytes than a length prefix, or than the record it announces. */
  lemma ReadEnd(file: bytes)
    requires |file| < 4 || (Uint32(file[..4]) <= MAX_ENTRY && |file| - 4 < Uint32(file[..4]))
    ensures Read(file) == Reading([], false)
  {
  }

  lemma FrameAt(data: bytes, rest: bytes)
    requires |data| < WORD
    ensures var f := Frame(data) + rest;
            Uint32(f[..4]) == |data| && f[4..4 + |data|] == data && f[4 + |data|..] == rest
  {
    var f := Frame(data) + rest;
    Uint32RoundTrip(|data|);
    assert f[..4] == PutUint32(|data|);
  }

  lemma {:induction false} ContentsAppend(a: seq<bytes>, b: seq<bytes>)
    requires Writable(a) && Writable(b)
    ensures Writable(a + b) && Contents(a + b) == Contents(a) + Contents(b)
    decreases |a|
  {
    if a == [] {
      assert a + b == b;
    } else {
      assert (a + b)[0] == a[0] && (a + b)[1..] == a[1..] + b;
      ContentsAppend(a[1..], b);
      BytesAssoc(Frame(a[0]), Contents(a[1..]), Contents(b));
    }
  }

  lemma ContentsOne(e: bytes)
    requires |e| < WORD
    ensures Contents([e]) == Frame(e)
  {
    assert [e][1..] == [];
    assert Contents([e]) == Frame(e) + Contents([]);
  }

  lemma ReadFrame(e: bytes, rest: bytes)
    requires |e| <= MAX_ENTRY
    ensures Read(Frame(e) + rest) == Reading([e] + Read(rest).entries, Read(rest).tooLarge)
  {
    FrameAt(e, rest);
  }

  /** Reading back: whatever follows complete records is read after them. */
  lemma {:induction false} ReadRecords(entries: seq<bytes>, rest: bytes)
    requires forall i :: 0 <= i < |entries| ==> |entries[i]| <= MAX_ENTRY
    ensures Writable(entries)
    ensures var r := Read(Contents(entries) + rest);
            r.entries == entries + Read(rest).entries && r.tooLarge == Read(rest).tooLarge
    decreases |entries|
  {
    if entries == [] {
      assert Contents(entries) + rest == rest;
    } else {
      var tail := Contents(entries[1..]) + rest;
      BytesAssoc(Frame(entries[0]), Contents(entries[1..]), rest);
      ReadFrame(entries[0], tail);
      ReadRecords(entries[1..], rest);
      Assoc([entries[0]], entries[1..], Read(rest).entries);
      assert entries == [entries[0]] + entries[1..];
    }
  }

  /** The strict prefix of one record reads as nothing. */
  lemma ReadTorn(e: bytes, cut: nat)
    requires |e| <= MAX_ENTRY && cut < 4 + |e|
    ensures Read(Frame(e)[..cut]) == Reading([], false)
  {
    Uint32RoundTrip(|e|);
    if cut >= 4 { assert Frame(e)[..cut][..4] == PutUint32(|e|); }
  }

  /** Framing: cut the file at any byte, and replay delivers exactly the entries whose
      whole record lies before the cut, in order, without an error. */
  lemma ReadCut(entries: seq<bytes>, cut: nat, whole: nat)
    requires forall i :: 0 <= i < |entries| ==> |entries[i]| <= MAX_ENTRY
    requires whole <= |entries|
    requires Writable(entries) && cut <= |Contents(entries)|
    requires |Contents(entries[..whole])| <= cut
    requires whole < |entries| ==> cut < |Contents(entries[..whole + 1])|
    ensures Read(Contents(entries)[..cut]) == Reading(entries[..whole], false)
  {
    var a, b := entries[..whole], entries[whole..];
    assert entries == a + b;
    ContentsAppend(a, b);
    var left := cut - |Contents(a)|;
    if whole == |entries| {
      assert Contents(entries)[..cut] == Contents(a) + [];
      ReadRecords(a, []);
    } else {
      assert entries[..whole + 1] == a + [b[0]];
      ContentsAppend(a, [b[0]]);
      ContentsOne(b[0]);
      assert left < 4 + |b[0]|;
      assert Contents(b)[..left] == Frame(b[0])[..left];
      assert Contents(entries)[..cut] == Contents(a) + Frame(b[0])[..left];
      ReadRecords(a, Frame(b[0])[..left]);
      ReadTorn(b[0], left);
    }
  }

  /** Every cut has such a count of whole records. */
  lemma {:induction false} CutHasCount(entries: seq<bytes>, cut: nat) returns (whole: nat)
    requires Writable(entries) && cut <= |Contents(entries)|
    ensures whole <= |entries| && |Contents(entries[..whole])| <= cut
    ensures whole < |entries| ==> cut < |Contents(entries[..whole + 1])|
    decreases |entries|
  {
    var n := |entries|;
    assert entries[..n] == entries;
    if |Contents(entries)| == cut {
      whole := n;
    } else {
      var init := entries[..n - 1];
      if |Contents(init)| <= cut {
        whole := n - 1;
      } else {
        whole := CutHasCount(init, cut);
        assert init[..whole] == entries[..whole];
        assert whole < n - 1 ==> init[..whole + 1] == entries[..whole + 1];
      }
    }
  }

  /** Append has no limit on one entry but replay does: everything written is read back
      exactly when no entry is over 1 MiB. */
  lemma ReadsAllExactly(entries: seq<bytes>)
    requires Writable(entries)
    ensures Read(Contents(entries)) == Reading(entries, false) <==>
            forall i :: 0 <= i < |entries| ==> |entries[i]| <= MAX_ENTRY
  {
    if forall i :: 0 <= i < |entries| ==> |entries[i]| <= MAX_ENTRY {
      ReadRecords(entries, []);
      assert Contents(entries) + [] == Contents(entries);
    } else {
      OversizeStops(entries);
    }
  }

  lemma {:induction false} OversizeStops(entries: seq<bytes>)
    requires Writable(entries) && exists i :: 0 <= i < |entries| && |entries[i]| > MAX_ENTRY
    ensures Read(Contents(entries)).tooLarge
    decreases |entries|
  {
    var tail := Contents(entries[1..]);
    FrameAt(entries[0], tail);
    if |entries[0]| <= MAX_ENTRY {
      var i :| 0 <= i < |entries| && |entries[i]| > MAX_ENTRY;
      assert entries[1..][i - 1] == entries[i];
      OversizeStops(entries[1..]);
    }
  }

  /** The record a torn one becomes once later bytes fill it up. */
  lemma TornFilled(torn: bytes, cut: nat, later: bytes)
    requires |torn| < WORD && 4 <= cut < 4 + |torn| <= cut + |later|
    ensures var missing, tail := 4 + |torn| - cut, Frame(torn)[..cut] + later;
            tail[4..4 + |torn|] == torn[..cut - 4] + later[..missing] && tail[4 + |torn|..] == later[missing..]
  {
    var missing, tail := 4 + |torn| - cut, Frame(torn)[..cut] + later;
    assert tail[4..cut] == Frame(torn)[4..cut] == torn[..cut - 4];
    assert tail[cut..4 + |torn|] == later[..missing];
    assert tail[4..4 + |torn|] == tail[4..cut] + tail[cut..4 + |torn|];
  }

  /** A torn tail is skipped but left in the file. Bytes written behind it fill up the length
      the torn record announced: while they do not, none of them is delivered; once they do,
      the torn bytes and theirs are delivered as one entry, and reading goes on in their middle. */
  lemma TornTailHidesAppends(entries: seq<bytes>, torn: bytes, cut: nat, later: bytes)
    requires forall i :: 0 <= i < |entries| ==> |entries[i]| <= MAX_ENTRY
    requires Writable(entries) && |torn| <= MAX_ENTRY && 4 <= cut < 4 + |torn|
    ensures var missing := 4 + |torn| - cut;
            var r := Read(Contents(entries) + Frame(torn)[..cut] + later);
            if |later| < missing then r == Reading(entries, false)
            else r == Reading(entries + ([torn[..cut - 4] + later[..missing]] + Read(later[missing..]).entries),
                              Read(later[missing..]).tooLarge)
  {
    var missing, tail := 4 + |torn| - cut, Frame(torn)[..cut] + later;
    Uint32RoundTrip(|torn|);
    assert tail[..4] == PutUint32(|torn|);
    BytesAssoc(Contents(entries), Frame(torn)[..cut], later);
    ReadRecords(entries, tail);
    if |later| < missing {
      ReadEnd(tail);
    } else {
      TornFilled(torn, cut, later);
      ReadStep(tail, |torn|);
    }
  }

  /** A record seen from the start of the file and from its own. */
  lemma Within(file: bytes, at: nat, length: nat)
    requires at + 4 + length <= |file|
    ensures file[at..][4..4 + length] == file[at + 4..at + 4 + length]
    ensures file[at..][4 + length..] == file[at + 4 + length..]
  {
  }

  // --- the open file ---------------------------------------------------------------------

  datatype Failure = NoFailure | Full | WriteFailed | SyncFailed

  class WAL {
    var file: bytes
    var size: nat
    var unsynced: nat
    ghost var stray: nat

    /** `stray` counts the bytes failed writes left behind, which `size` does not. */
    ghost predicate Valid() reads this {
      size + stray == |file|
    }

    constructor (existing: bytes)
      ensures Valid() && file == existing && stray == 0
    {
      file, size, unsynced, stray := existing, |existing|, 0, 0;
    }

    /** Appends one record unless the counted bytes would outgrow the cap. The write may stop
        after `accepted` bytes, and the sync that closes a batch may fail. */
    method Append(data: bytes, accepted: nat, synced: bool) returns (err: Failure)
      requires Valid() && |data| < WORD
      modifies this
      ensures Valid()
      ensures err == Full <==> 4 + |data| + old(size) > MAX_WAL
      ensures err == WriteFailed <==> err != Full && accepted < 4 + |data|
      ensures err == SyncFailed <==> err != Full && err != WriteFailed && old(unsynced) + 1 >= SYNC_BATCH && !synced
      ensures file == old(file) + match err
                                  case Full => []
                                  case WriteFailed => Frame(data)[..accepted]
                                  case _ => Frame(data)
      ensures stray == old(stray) + if err == WriteFailed then accepted else 0
      ensures old(size) <= MAX_WAL ==> |file| <= MAX_WAL + stray
      ensures old(unsynced) < SYNC_BATCH ==> unsynced < SYNC_BATCH || err == SyncFailed
    {
      if 4 + |data| + size > MAX_WAL { return Full; }
      var record := PutUint32(|data|);
      record := record + data;
      if accepted < |record| {
        file := file + record[..accepted];
        stray := stray + accepted;
        return WriteFailed;
      }
      file := file + record;
      size := size + 4 + |data|;
      unsynced := unsynced + 1;
      if unsynced >= SYNC_BATCH {
        if !synced { return SyncFailed; }
        unsynced := 0;
      }
      return NoFailure;
    }

    /** One turn of the replay loop. */
    method NextRecord(at: nat) returns (r: Record)
      requires at <= |file|
      ensures r == Ended ==> Read(file[at..]) == Reading([], false)
      ensures r == Oversize ==> Read(file[at..]) == Reading([], true)
      ensures r.Whole? ==> at < r.next <= |file| && Continues(Read(file[at..]), r.data, Read(file[r.next..]))
    {
      ghost var here := file[at..];
      if |file| - at < 4 {
        ReadEnd(here);
        return Ended;
      }
      var length := Uint32(file[at..at + 4]);
      assert here[..4] == file[at..at + 4];
      if length > MAX_ENTRY { return Oversize; }
      if |file| - at - 4 < length {
        ReadEnd(here);
        return Ended;
      }
      r := Whole(file[at + 4..at + 4 + length], at + 4 + length);
      Within(file, at, length);
      ReadStep(here, length);
    }

    /** Reads the records from the start of the file. */
    method Replay() returns (entries: seq<bytes>, failed: bool)
      requires Valid()
      ensures Reading(entries, failed) == Read(file)
    {
      entries, failed := [], false;
      var at := 0;
      ghost var all := Read(file);
      assert file[at..] == file;
      while true
        invariant at <= |file|
        invariant Reading(entries + Read(file[at..]).entries, Read(file[at..]).tooLarge) == all
        invariant !failed
        decreases |file| - at
      {
        var r := NextRecord(at);
        if r == Ended { return; }
        if r == Oversize {
          failed := true;
          return;
        }
        Assoc(entries, [r.data], Read(file[r.next..]).entries);
        entries, at := entries + [r.data], r.next;
      }
    }

    method Truncate()
      requires Valid()
      modifies this
      ensures Valid() && file == [] && stray == 0
    {
      file, size, unsynced, stray := [], 0, 0, 0;
    }
  }

  /** A cut taken from a file the class wrote: Append extends Contents by one entry. */
  lemma AppendExtends(entries: seq<bytes>, data: bytes)
    requires Writable(entries) && |data| < WORD
    ensures Writable(entries + [data]) && Contents(entries + [data]) == Contents(entries) + Frame(data)
  {
    ContentsAppend(entries, [data]);
    ContentsOne(data);
  }
}
