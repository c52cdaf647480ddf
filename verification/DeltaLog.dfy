/** The bounded log of recent mutations against the unbounded history it stands for. */
module DeltaLog {
  import opened Options

  const MAX_LOG: nat := 10000

  datatype Payload = Payload(kind: nat, node: nat, data: string)
  datatype Entry = Entry(seqNo: nat, payload: Payload)

  // --- history -------------------------------------------------------------------------------

  /** The history with its sequence numbers; the first entry has number 1. */
  function Numbered(history: seq<Payload>): (r: seq<Entry>)
    ensures |r| == |history| && forall i :: 0 <= i < |r| ==> r[i] == Entry(i + 1, history[i])
  {
    seq(|history|, i requires 0 <= i < |history| => Entry(i + 1, history[i]))
  }

  /** The history after sequence number `q`. */
  function Beyond(history: seq<Payload>, q: nat): seq<Entry> {
    if q <= |history| then Numbered(history)[q..] else []
  }

  function Dropped(history: seq<Payload>): nat {
    if |history| > MAX_LOG then |history| - MAX_LOG else 0
  }

  /** The retained window: the last min(n, 10000) entries, consecutively numbered. */
  function Window(history: seq<Payload>): seq<Entry> {
    Numbered(history)[Dropped(history)..]
  }

  lemma NumberedSnoc(history: seq<Payload>, p: Payload)
    ensures Numbered(history + [p]) == Numbered(history) + [Entry(|history| + 1, p)]
  {
  }

  // --- the log -----------------------------------------------------------------------------------

  /** What Since returns: nothing when the caller must fall back to a snapshot. */
  function Since(entries: seq<Entry>, q: nat): Option<seq<Entry>> {
    if entries == [] || q < entries[0].seqNo then None
    else Some(After(entries, q))
  }

  function After(entries: seq<Entry>, q: nat): seq<Entry>
    decreases |entries|
  {
    if entries == [] || entries[0].seqNo > q then entries else After(entries[1..], q)
  }

  class Log {
    var entries: seq<Entry>
    var nextSeq: nat
    ghost var history: seq<Payload>

    ghost predicate Valid() reads this {
      nextSeq == |history| + 1 && entries == Window(history)
    }

    constructor ()
      ensures Valid() && history == []
    {
      entries, nextSeq, history := [], 1, [];
    }

    method Append(p: Payload) returns (n: nat)
      requires Valid()
      modifies this
      ensures Valid() && history == old(history) + [p]
      ensures n == |history|
    {
      NumberedSnoc(history, p);
      n := nextSeq;
      nextSeq := nextSeq + 1;
      entries := entries + [Entry(n, p)];
      history := history + [p];
      if |entries| > MAX_LOG {
        var excess := |entries| - MAX_LOG;
        entries := entries[excess..];
      }
    }

    method EntriesSince(q: nat) returns (r: Option<seq<Entry>>)
      requires Valid()
      ensures r == Since(entries, q)
      ensures r.Some? <==> history != [] && q >= 1 && |history| < q + 10000
      ensures r.Some? ==> IsRest(history, q, r.value)
    {
      SinceIsHistory(history, q);
      if |entries| == 0 || q < entries[0].seqNo { return None; }
      var start := 0;
      while start < |entries| && entries[start].seqNo <= q
        invariant start <= |entries|
        invariant After(entries[start..], q) == After(entries, q)
      {
        assert entries[start..][1..] == entries[start + 1..];
        start := start + 1;
      }
      return Some(entries[start..]);
    }

    method CurrentSeq() returns (n: nat)
      requires Valid()
      ensures n == |history|
    {
      n := nextSeq - 1;
    }
  }

  // --- what Since means ---------------------------------------------------------------------------

  lemma {:induction false} AfterConsecutive(entries: seq<Entry>, q: nat, first: nat)
    requires forall i :: 0 <= i < |entries| ==> entries[i].seqNo == first + i
    ensures After(entries, q) == if q < first then entries
                                 else if q - first < |entries| then entries[q - first + 1..] else []
    decreases |entries|
  {
    if entries != [] && entries[0].seqNo <= q {
      assert forall i :: 0 <= i < |entries[1..]| ==> entries[1..][i] == entries[i + 1];
      AfterConsecutive(entries[1..], q, first + 1);
    }
  }

  /** The entries with the numbers from `q + 1` to the last one, in order. */
  ghost predicate IsRest(history: seq<Payload>, q: nat, es: seq<Entry>) {
    && |es| == (if q < |history| then |history| - q else 0)
    && forall i :: 0 <= i < |es| ==> es[i] == Entry(q + i + 1, history[q + i])
  }

  /** A non-nil answer is exactly the history after `q`, and the answer is nil exactly when
      the log is empty, `q` is zero, or `q` is not among the last ten thousand numbers. */
  lemma SinceIsHistory(history: seq<Payload>, q: nat)
    ensures Since(Window(history), q).Some? <==> history != [] && q >= 1 && |history| < q + 10000
    ensures Since(Window(history), q).Some? ==> IsRest(history, q, Since(Window(history), q).value)
    ensures Since(Window(history), q).Some? ==> Since(Window(history), q).value == Beyond(history, q)
  {
    var w := Window(history);
    AfterConsecutive(w, q, Dropped(history) + 1);
    if Since(w, q).Some? && q <= |history| {
      assert w[q - Dropped(history)..] == Numbered(history)[q..];
    }
  }

  /** Nil is sometimes given although nothing is missing: exactly for the number just below
      the oldest retained one, and for any number at or past the end of an empty history. */
  lemma NeedlessResync(history: seq<Payload>, q: nat)
    ensures Since(Window(history), q).None? && |history| <= q + 10000 <==>
            history == [] || |history| == q + 10000 || (q == 0 && |history| < 10000)
  {
    SinceIsHistory(history, q);
  }

  // --- a follower --------------------------------------------------------------------------------------

  datatype Event = Mutate(p: Payload) | PollLog

  /** The primary's history and what a follower has applied, with its last-seen number. */
  datatype Pair = Pair(history: seq<Payload>, applied: seq<Payload>, last: nat)

  function Payloads(entries: seq<Entry>): (r: seq<Payload>)
    ensures |r| == |entries| && forall i :: 0 <= i < |r| ==> r[i] == entries[i].payload
    decreases |entries|
  {
    if entries == [] then [] else [entries[0].payload] + Payloads(entries[1..])
  }

  /** A poll applies the entries it gets, or takes a snapshot when told to resync. */
  function Advance(s: Pair, e: Event): Pair {
    match e
    case Mutate(p) => s.(history := s.history + [p])
    case PollLog =>
      match Since(Window(s.history), s.last)
      case None => s.(applied := s.history, last := |s.history|)
      case Some(es) =>
        s.(applied := s.applied + Payloads(es), last := if es == [] then s.last else es[|es| - 1].seqNo)
  }

  function AdvanceAll(s: Pair, evs: seq<Event>): Pair
    decreases |evs|
  {
    if evs == [] then s else AdvanceAll(Advance(s, evs[0]), evs[1..])
  }

  /** The follower has applied exactly the first `last` mutations. */
  ghost predicate InStep(s: Pair) {
    s.last <= |s.history| && s.applied == s.history[..s.last]
  }

  lemma BeyondPayloads(history: seq<Payload>, q: nat)
    requires q <= |history|
    ensures history[..q] + Payloads(Beyond(history, q)) == history
    ensures Beyond(history, q) != [] ==> Beyond(history, q)[|Beyond(history, q)| - 1].seqNo == |history|
    ensures Beyond(history, q) == [] ==> q == |history|
  {
    var es, tail := Beyond(history, q), history[q..];
    BeyondAt(history, q);
    PayloadsAre(es, tail);
    assert history[..q] + tail == history;
  }

  lemma PayloadsAre(es: seq<Entry>, ps: seq<Payload>)
    requires |es| == |ps| && forall i :: 0 <= i < |es| ==> es[i].payload == ps[i]
    ensures Payloads(es) == ps
  {
  }

  lemma BeyondAt(history: seq<Payload>, q: nat)
    requires q <= |history|
    ensures var es := Beyond(history, q);
            |es| == |history| - q && forall i :: 0 <= i < |es| ==> es[i] == Entry(q + i + 1, history[q..][i])
  {
    var all := Numbered(history);
    forall i | 0 <= i < |history| - q ensures all[q..][i] == Entry(q + i + 1, history[q..][i]) {
      assert all[q..][i] == all[q + i] && history[q..][i] == history[q + i];
    }
  }

  lemma PollInStep(s: Pair)
    requires InStep(s)
    ensures Advance(s, PollLog) == Pair(s.history, s.history, |s.history|)
  {
    SinceIsHistory(s.history, s.last);
    BeyondPayloads(s.history, s.last);
  }

  lemma AdvanceInStep(s: Pair, e: Event)
    requires InStep(s)
    ensures InStep(Advance(s, e)) && (e.PollLog? ==> Advance(s, e).applied == s.history)
  {
    if e.PollLog? { PollInStep(s); }
  }

  /** No gap and no repeat: through any mutations and polls the follower holds a prefix of
      the history, and each poll brings it fully up to date. */
  lemma {:induction false} FollowerInStep(s: Pair, evs: seq<Event>)
    requires InStep(s)
    ensures InStep(AdvanceAll(s, evs))
    decreases |evs|
  {
    if evs != [] {
      AdvanceInStep(s, evs[0]);
      FollowerInStep(Advance(s, evs[0]), evs[1..]);
    }
  }
}
