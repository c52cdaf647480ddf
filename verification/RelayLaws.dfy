/** Which requests a relay delivers, told from the events alone: since a node's last poll, the
    first request of each of the first hundred senders, and no other. */
module RelayLaws {
  import opened Handshake

  const HUNDRED: nat := 100

  /** The event asks `n` for a handshake. */
  predicate AsksOf(e: Event, n: NodeId) {
    e.Ask? && e.to == n
  }

  /** Where the events after the last poll of `n` start. */
  function LastPoll(evs: seq<Event>, n: NodeId): (k: nat)
    ensures k <= |evs| && forall i :: k <= i < |evs| ==> evs[i] != Poll(n)
    ensures k > 0 ==> evs[k - 1] == Poll(n)
  {
    if evs == [] then 0
    else if evs[|evs| - 1] == Poll(n) then |evs|
    else LastPoll(evs[..|evs| - 1], n)
  }

  /** Everyone who asked `n` since its last poll. */
  ghost function Asking(evs: seq<Event>, n: NodeId): set<NodeId> {
    set i | LastPoll(evs, n) <= i < |evs| && AsksOf(evs[i], n) :: evs[i].request.from
  }

  /** The first request of each of them, in the order they were made. */
  function FirstAsks(evs: seq<Event>, n: NodeId): seq<Request> {
    if evs == [] || evs[|evs| - 1] == Poll(n) then []
    else
      var e, so := evs[|evs| - 1], FirstAsks(evs[..|evs| - 1], n);
      if AsksOf(e, n) && e.request.from !in Senders(so) then so + [e.request] else so
  }

  // --- the first requests are those of everyone who asked -----------------------------------------

  lemma SendersAfter(inbox: seq<Request>, r: Request)
    ensures Senders(inbox + [r]) == Senders(inbox) + {r.from}
  {
    var more := inbox + [r];
    assert more[|inbox|] == r && more[..|inbox|] == inbox && more[..|inbox| + 1] == more;
    SendersSnoc(more, |inbox|);
  }

  lemma AskingSnoc(evs: seq<Event>, n: NodeId)
    requires evs != []
    ensures var e, before := evs[|evs| - 1], evs[..|evs| - 1];
            Asking(evs, n) == if e == Poll(n) then {} else if AsksOf(e, n) then Asking(before, n) + {e.request.from}
                              else Asking(before, n)
  {
    var m := |evs| - 1;
    var e, before := evs[m], evs[..m];
    if e != Poll(n) {
      var all := Asking(evs, n);
      forall p | p in Asking(before, n) ensures p in all {
        var i :| LastPoll(before, n) <= i < |before| && AsksOf(before[i], n) && before[i].request.from == p;
        assert evs[i] == before[i];
      }
      if AsksOf(e, n) { assert evs[m].request.from in all; }
      forall p | p in all ensures p in Asking(before, n) || (AsksOf(e, n) && p == e.request.from) {
        var i :| LastPoll(evs, n) <= i < |evs| && AsksOf(evs[i], n) && evs[i].request.from == p;
        if i < m { assert before[i] == evs[i]; }
      }
    }
  }

  lemma {:induction false} FirstAsksAre(evs: seq<Event>, n: NodeId)
    ensures Senders(FirstAsks(evs, n)) == Asking(evs, n) && |FirstAsks(evs, n)| == |Asking(evs, n)|
    ensures DistinctSenders(FirstAsks(evs, n))
    decreases |evs|
  {
    if evs != [] {
      var e, before := evs[|evs| - 1], evs[..|evs| - 1];
      AskingSnoc(evs, n);
      FirstAsksAre(before, n);
      if AsksOf(e, n) {
        var so := FirstAsks(before, n);
        SendersAfter(so, e.request);
        if e.request.from !in Senders(so) { DistinctAfter(so, e.request); }
      }
    }
  }

  lemma DistinctAfter(inbox: seq<Request>, r: Request)
    requires DistinctSenders(inbox) && r.from !in Senders(inbox)
    ensures DistinctSenders(inbox + [r])
  {
    forall i | 0 <= i < |inbox| ensures inbox[i].from != r.from { assert inbox[i].from in Senders(inbox); }
  }

  // --- the inbox -------------------------------------------------------------------------------------

  function Take(inbox: seq<Request>): seq<Request> {
    if |inbox| <= HUNDRED then inbox else inbox[..HUNDRED]
  }

  lemma {:induction false} RunSnoc(s: Store, evs: seq<Event>)
    requires evs != []
    ensures Run(s, evs) == Next(Run(s, evs[..|evs| - 1]), evs[|evs| - 1])
    decreases |evs|
  {
    if |evs| > 1 {
      RunSnoc(Next(s, evs[0]), evs[1..]);
      assert evs[1..][..|evs| - 2] == evs[..|evs| - 1][1..];
    }
  }

  lemma AskedIsSender(inbox: seq<Request>, p: NodeId)
    ensures Asked(inbox, p) <==> p in Senders(inbox)
  {
  }

  /** One request more: `all` are the first requests so far, of which the inbox holds a hundred. */
  lemma AskDelivers(s: Store, n: NodeId, r: Request, all: seq<Request>)
    requires Inbox(s, n) == Take(all)
    ensures Inbox(Relay(s, n, r), n) == Take(if r.from in Senders(all) then all else all + [r])
  {
    AskedIsSender(Take(all), r.from);
    if |all| >= HUNDRED {
      assert (all + [r])[..HUNDRED] == all[..HUNDRED];
    }
  }

  lemma OthersKeep(s: Store, e: Event, n: NodeId)
    requires !AsksOf(e, n) && e != Poll(n)
    ensures Inbox(Next(s, e), n) == Inbox(s, n)
  {
  }

  /** After any history, restarts included, the inbox of `n` holds the first request of each of
      the first hundred senders since its last poll, in order. */
  lemma {:induction false} InboxIsFirstAsks(evs: seq<Event>, n: NodeId)
    ensures Inbox(Run(Empty, evs), n) == Take(FirstAsks(evs, n))
    decreases |evs|
  {
    if evs != [] {
      var e, before := evs[|evs| - 1], evs[..|evs| - 1];
      InboxIsFirstAsks(before, n);
      RunSnoc(Empty, evs);
      if AsksOf(e, n) {
        AskDelivers(Run(Empty, before), n, e.request, FirstAsks(before, n));
      } else if e != Poll(n) {
        OthersKeep(Run(Empty, before), e, n);
      }
    }
  }

  /** As long as at most a hundred nodes asked since the last poll, nobody was turned away. */
  lemma NoneTurnedAway(evs: seq<Event>, n: NodeId)
    requires |Asking(evs, n)| <= 100
    ensures Inbox(Run(Empty, evs), n) == FirstAsks(evs, n) && Senders(Inbox(Run(Empty, evs), n)) == Asking(evs, n)
  {
    FirstAsksAre(evs, n);
    InboxIsFirstAsks(evs, n);
  }

  /** A request is refused if and only if its sender asked since the last poll, or a hundred
      nodes did; it is called full exactly in the second case. */
  lemma RefusedExactly(evs: seq<Event>, n: NodeId, p: NodeId)
    ensures var outcome := RelayOutcome(Run(Empty, evs), n, p);
            && (outcome == InboxFull <==> |Asking(evs, n)| >= 100)
            && (outcome == Delivered <==> |Asking(evs, n)| < 100 && p !in Asking(evs, n))
  {
    FirstAsksAre(evs, n);
    InboxIsFirstAsks(evs, n);
    AskedIsSender(FirstAsks(evs, n), p);
  }

  /** What a delivered request adds, and that a refused one adds nothing. */
  lemma DeliveredExactly(evs: seq<Event>, n: NodeId, r: Request)
    ensures var s, t := Run(Empty, evs), Run(Empty, evs + [Ask(n, r)]);
            if |Asking(evs, n)| < 100 && r.from !in Asking(evs, n)
            then Inbox(t, n) == Inbox(s, n) + [r] && r.from in Pending(t, n)
            else t == s
  {
    var all := evs + [Ask(n, r)];
    assert all[..|all| - 1] == evs && all[|all| - 1] == Ask(n, r);
    RunSnoc(Empty, all);
    RefusedExactly(evs, n, r.from);
  }
}
