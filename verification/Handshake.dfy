/** The handshake relay: request inboxes, response inboxes and the pending set that
    authorises an approval. */
module Handshake {

  const MAX_INBOX: nat := 100

  type NodeId = nat

  datatype Request = Request(from: NodeId, justification: string, at: int)
  datatype Response = Response(from: NodeId, accept: bool, at: int)

  datatype Store = Store(
    inbox: map<NodeId, seq<Request>>,
    responses: map<NodeId, seq<Response>>,
    pending: map<NodeId, set<NodeId>>)

  datatype Outcome = Delivered | InboxFull | AlreadyPending

  function Inbox(s: Store, n: NodeId): seq<Request> { if n in s.inbox then s.inbox[n] else [] }
  function Responses(s: Store, n: NodeId): seq<Response> { if n in s.responses then s.responses[n] else [] }
  function Pending(s: Store, n: NodeId): set<NodeId> { if n in s.pending then s.pending[n] else {} }

  predicate Asked(inbox: seq<Request>, from: NodeId) {
    exists i :: 0 <= i < |inbox| && inbox[i].from == from
  }

  // --- the locked sections -----------------------------------------------------------------------

  function RelayOutcome(s: Store, to: NodeId, from: NodeId): Outcome {
    if |Inbox(s, to)| >= MAX_INBOX then InboxFull
    else if Asked(Inbox(s, to), from) then AlreadyPending
    else Delivered
  }

  function Relay(s: Store, to: NodeId, r: Request): Store {
    if RelayOutcome(s, to, r.from) != Delivered then s
    else s.(inbox := s.inbox[to := Inbox(s, to) + [r]],
            pending := s.pending[to := Pending(s, to) + {r.from}])
  }

  function Pop(s: Store, n: NodeId): Store {
    s.(inbox := s.inbox - {n}, responses := s.responses - {n})
  }

  function TakePending(s: Store, n: NodeId, peer: NodeId): Store {
    if peer !in Pending(s, n) then s
    else
      var left := Pending(s, n) - {peer};
      s.(pending := if left == {} then s.pending - {n} else s.pending[n := left])
  }

  function AppendResponse(s: Store, to: NodeId, r: Response): Store {
    s.(responses := s.responses[to := Responses(s, to) + [r]])
  }

  function Senders(inbox: seq<Request>): set<NodeId> {
    set i | 0 <= i < |inbox| :: inbox[i].from
  }

  function Authorisations(inbox: map<NodeId, seq<Request>>): map<NodeId, set<NodeId>> {
    map n | n in inbox && inbox[n] != [] :: Senders(inbox[n])
  }

  /** The store rebuilt from a snapshot of the inboxes. */
  function Restore(inbox: map<NodeId, seq<Request>>, responses: map<NodeId, seq<Response>>): Store {
    Store(inbox, responses, Authorisations(inbox))
  }

  // --- runs --------------------------------------------------------------------------------------

  datatype Event =
    | Ask(to: NodeId, request: Request)
    | Poll(node: NodeId)
    | Approve(node: NodeId, peer: NodeId)
    | Answer(to: NodeId, response: Response)
    | Reload

  const Empty := Store(map[], map[], map[])

  function Next(s: Store, e: Event): Store {
    match e
    case Ask(to, r) => Relay(s, to, r)
    case Poll(n) => Pop(s, n)
    case Approve(n, p) => TakePending(s, n, p)
    case Answer(to, r) => AppendResponse(s, to, r)
    case Reload => Restore(s.inbox, s.responses)
  }

  function Run(s: Store, evs: seq<Event>): Store
    decreases |evs|
  {
    if evs == [] then s else Run(Next(s, evs[0]), evs[1..])
  }

  /** The requests relayed to `n`, in order. */
  function Relayed(s: Store, evs: seq<Event>, n: NodeId): seq<Request>
    decreases |evs|
  {
    if evs == [] then []
    else
      var e := evs[0];
      (if e.Ask? && e.to == n && RelayOutcome(s, n, e.request.from) == Delivered then [e.request] else [])
      + Relayed(Next(s, e), evs[1..], n)
  }

  /** The requests `n`'s polls returned, in order. */
  function Polled(s: Store, evs: seq<Event>, n: NodeId): seq<Request>
    decreases |evs|
  {
    if evs == [] then []
    else (if evs[0] == Poll(n) then Inbox(s, n) else []) + Polled(Next(s, evs[0]), evs[1..], n)
  }

  function Answered(s: Store, evs: seq<Event>, n: NodeId): seq<Response>
    decreases |evs|
  {
    if evs == [] then []
    else (if evs[0].Answer? && evs[0].to == n then [evs[0].response] else []) + Answered(Next(s, evs[0]), evs[1..], n)
  }

  function PolledAnswers(s: Store, evs: seq<Event>, n: NodeId): seq<Response>
    decreases |evs|
  {
    if evs == [] then []
    else (if evs[0] == Poll(n) then Responses(s, n) else []) + PolledAnswers(Next(s, evs[0]), evs[1..], n)
  }

  function CountFrom(rs: seq<Request>, from: NodeId): nat
    decreases |rs|
  {
    if rs == [] then 0 else (if rs[0].from == from then 1 else 0) + CountFrom(rs[1..], from)
  }

  /** How often `n` approved a request of `p`. */
  function Approvals(s: Store, evs: seq<Event>, n: NodeId, p: NodeId): nat
    decreases |evs|
  {
    if evs == [] then 0
    else (if evs[0] == Approve(n, p) && p in Pending(s, n) then 1 else 0) + Approvals(Next(s, evs[0]), evs[1..], n, p)
  }

  // --- nothing lost, nothing repeated, in order ------------------------------------------------------

  lemma AssocR(a: seq<Request>, b: seq<Request>, c: seq<Request>)
    ensures a + (b + c) == (a + b) + c
  {
  }

  lemma AssocA(a: seq<Response>, b: seq<Response>, c: seq<Response>)
    ensures a + (b + c) == (a + b) + c
  {
  }

  /** What was waiting, followed by what was relayed, is what was polled, followed by what
      still waits: every request is returned by exactly one poll or still waiting. */
  lemma {:induction false} RequestsConserved(s: Store, evs: seq<Event>, n: NodeId)
    ensures Inbox(s, n) + Relayed(s, evs, n) == Polled(s, evs, n) + Inbox(Run(s, evs), n)
    decreases |evs|
  {
    if evs != [] {
      var e, s', tail := evs[0], Next(s, evs[0]), evs[1..];
      RequestsConserved(s', tail, n);
      if e.Ask? && e.to == n && RelayOutcome(s, n, e.request.from) == Delivered {
        AssocR(Inbox(s, n), [e.request], Relayed(s', tail, n));
      } else if e == Poll(n) {
        AssocR(Inbox(s, n), Polled(s', tail, n), Inbox(Run(s, evs), n));
        assert Inbox(s', n) + Relayed(s', tail, n) == [] + Relayed(s', tail, n);
      } else {
        assert Relayed(s, evs, n) == Relayed(s', tail, n);
      }
      assert e != Poll(n) ==> Polled(s, evs, n) == Polled(s', tail, n);
    }
  }

  lemma {:induction false} ResponsesConserved(s: Store, evs: seq<Event>, n: NodeId)
    ensures Responses(s, n) + Answered(s, evs, n) == PolledAnswers(s, evs, n) + Responses(Run(s, evs), n)
    decreases |evs|
  {
    if evs != [] {
      var e, s', tail := evs[0], Next(s, evs[0]), evs[1..];
      ResponsesConserved(s', tail, n);
      if e.Answer? && e.to == n {
        AssocA(Responses(s, n), [e.response], Answered(s', tail, n));
      } else if e == Poll(n) {
        AssocA(Responses(s, n), PolledAnswers(s', tail, n), Responses(Run(s, evs), n));
        assert Responses(s', n) + Answered(s', tail, n) == [] + Answered(s', tail, n);
      } else {
        assert Answered(s, evs, n) == Answered(s', tail, n);
      }
      assert e != Poll(n) ==> PolledAnswers(s, evs, n) == PolledAnswers(s', tail, n);
    }
  }

  // --- approvals need requests -----------------------------------------------------------------------

  function Bit(b: bool): nat { if b then 1 else 0 }

  predicate Delivers(s: Store, e: Event, n: NodeId, p: NodeId) {
    e.Ask? && e.to == n && e.request.from == p && RelayOutcome(s, n, p) == Delivered
  }

  /** How often `p` asked `n` again while an earlier authorisation was still open. */
  function Renewals(s: Store, evs: seq<Event>, n: NodeId, p: NodeId): nat
    decreases |evs|
  {
    if evs == [] then 0
    else Bit(Delivers(s, evs[0], n, p) && p in Pending(s, n)) + Renewals(Next(s, evs[0]), evs[1..], n, p)
  }

  /** How often a restart authorised `p` anew: its request was waiting but already approved. */
  function Regained(s: Store, evs: seq<Event>, n: NodeId, p: NodeId): nat
    decreases |evs|
  {
    if evs == [] then 0
    else Bit(evs[0].Reload? && Asked(Inbox(s, n), p) && p !in Pending(s, n)) + Regained(Next(s, evs[0]), evs[1..], n, p)
  }

  /** How often a restart dropped the authorisation of `p`: its request was already polled. */
  function Dropped(s: Store, evs: seq<Event>, n: NodeId, p: NodeId): nat
    decreases |evs|
  {
    if evs == [] then 0
    else Bit(evs[0].Reload? && !Asked(Inbox(s, n), p) && p in Pending(s, n)) + Dropped(Next(s, evs[0]), evs[1..], n, p)
  }

  lemma RestoredPending(s: Store, n: NodeId, p: NodeId)
    ensures p in Pending(Restore(s.inbox, s.responses), n) <==> Asked(Inbox(s, n), p)
  {
    if Asked(Inbox(s, n), p) {
      var i :| 0 <= i < |Inbox(s, n)| && Inbox(s, n)[i].from == p;
      assert p in Senders(Inbox(s, n));
    }
  }

  lemma OneEventAccounted(s: Store, e: Event, n: NodeId, p: NodeId)
    ensures Bit(e == Approve(n, p) && p in Pending(s, n)) + Bit(p in Pending(Next(s, e), n))
            + Bit(Delivers(s, e, n, p) && p in Pending(s, n))
            + Bit(e.Reload? && !Asked(Inbox(s, n), p) && p in Pending(s, n))
            == Bit(Delivers(s, e, n, p)) + Bit(e.Reload? && Asked(Inbox(s, n), p) && p !in Pending(s, n))
            + Bit(p in Pending(s, n))
  {
    RestoredPending(s, n, p);
  }

  lemma RelayedFrom(s: Store, evs: seq<Event>, n: NodeId, p: NodeId)
    requires evs != []
    ensures CountFrom(Relayed(s, evs, n), p)
            == Bit(Delivers(s, evs[0], n, p)) + CountFrom(Relayed(Next(s, evs[0]), evs[1..], n), p)
  {
    var e, rest := evs[0], Relayed(Next(s, evs[0]), evs[1..], n);
    if e.Ask? && e.to == n && RelayOutcome(s, n, e.request.from) == Delivered {
      assert ([e.request] + rest)[1..] == rest;
    } else {
      assert [] + rest == rest;
    }
  }

  /** Every authorisation is accounted for over every run, restarts included: approvals, the
      one still open, those renewed and those a restart dropped are the requests relayed,
      those a restart brought back and the one open at the start. */
  lemma {:induction false} AuthorisationsConserved(s: Store, evs: seq<Event>, n: NodeId, p: NodeId)
    ensures Approvals(s, evs, n, p) + Bit(p in Pending(Run(s, evs), n)) + Renewals(s, evs, n, p) + Dropped(s, evs, n, p)
            == CountFrom(Relayed(s, evs, n), p) + Regained(s, evs, n, p) + Bit(p in Pending(s, n))
    decreases |evs|
  {
    if evs != [] {
      AuthorisationsConserved(Next(s, evs[0]), evs[1..], n, p);
      OneEventAccounted(s, evs[0], n, p);
      RelayedFrom(s, evs, n, p);
    }
  }

  lemma {:induction false} NothingRegained(s: Store, evs: seq<Event>, n: NodeId, p: NodeId)
    requires Reload !in evs
    ensures Regained(s, evs, n, p) == 0
    decreases |evs|
  {
    if evs != [] { NothingRegained(Next(s, evs[0]), evs[1..], n, p); }
  }

  /** Without a restart, approvals by `n` of `p` never exceed the requests relayed from `p` to `n`. */
  lemma ApprovalsBounded(evs: seq<Event>, n: NodeId, p: NodeId)
    requires Reload !in evs
    ensures Approvals(Empty, evs, n, p) <= CountFrom(Relayed(Empty, evs, n), p)
  {
    AuthorisationsConserved(Empty, evs, n, p);
    NothingRegained(Empty, evs, n, p);
  }

  /** With restarts the bound holds if and only if they bring back no more authorisations than
      were renewed, dropped or left open. */
  lemma ApprovalsBoundedExactly(evs: seq<Event>, n: NodeId, p: NodeId)
    ensures Approvals(Empty, evs, n, p) <= CountFrom(Relayed(Empty, evs, n), p) <==>
            Regained(Empty, evs, n, p)
            <= Renewals(Empty, evs, n, p) + Dropped(Empty, evs, n, p) + Bit(p in Pending(Run(Empty, evs), n))
  {
    AuthorisationsConserved(Empty, evs, n, p);
  }

  /** Whether some request of `p` was approved twice: `k` approvals since the last delivery. */
  predicate ApprovedAgain(s: Store, k: nat, evs: seq<Event>, n: NodeId, p: NodeId)
    decreases |evs|
  {
    evs != [] &&
    var e := evs[0];
    var approved := e == Approve(n, p) && p in Pending(s, n);
    || (approved && k > 0)
    || ApprovedAgain(Next(s, e), if Delivers(s, e, n, p) then 0 else if approved then k + 1 else k, evs[1..], n, p)
  }

  /** A restart comes while a request of `p` waits that was already approved, and an approval
      follows before the next delivery; `open` says there was such a restart. */
  predicate ApprovedAcrossRestart(s: Store, open: bool, evs: seq<Event>, n: NodeId, p: NodeId)
    decreases |evs|
  {
    evs != [] &&
    var e := evs[0];
    var again := e.Reload? && Asked(Inbox(s, n), p) && p !in Pending(s, n);
    || (open && e == Approve(n, p) && p in Pending(s, n))
    || ApprovedAcrossRestart(Next(s, e), !Delivers(s, e, n, p) && (open || again), evs[1..], n, p)
  }

  /** How the count, the flag and the store hang together. */
  ghost predicate Tallied(s: Store, k: nat, open: bool, n: NodeId, p: NodeId) {
    && (Asked(Inbox(s, n), p) && p !in Pending(s, n) ==> k > 0)
    && (p in Pending(s, n) && k > 0 ==> open)
    && (open ==> k > 0)
  }

  lemma InboxAfter(s: Store, e: Event, n: NodeId, p: NodeId)
    ensures Asked(Inbox(Next(s, e), n), p) <==> Delivers(s, e, n, p) || (Asked(Inbox(s, n), p) && e != Poll(n))
  {
    if e.Ask? { AskedSnoc(Inbox(s, n), e.request, p); }
  }

  lemma TalliedNext(s: Store, k: nat, open: bool, e: Event, n: NodeId, p: NodeId)
    requires Tallied(s, k, open, n, p)
    ensures var approved := e == Approve(n, p) && p in Pending(s, n);
            var again := e.Reload? && Asked(Inbox(s, n), p) && p !in Pending(s, n);
            Tallied(Next(s, e), if Delivers(s, e, n, p) then 0 else if approved then k + 1 else k,
                    !Delivers(s, e, n, p) && (open || again), n, p)
  {
    InboxAfter(s, e, n, p);
    RestoredPending(s, n, p);
  }

  lemma {:induction false} AgainExactly(s: Store, k: nat, open: bool, evs: seq<Event>, n: NodeId, p: NodeId)
    requires Tallied(s, k, open, n, p)
    ensures ApprovedAgain(s, k, evs, n, p) <==> ApprovedAcrossRestart(s, open, evs, n, p)
    decreases |evs|
  {
    if evs != [] {
      var e := evs[0];
      var approved := e == Approve(n, p) && p in Pending(s, n);
      var again := e.Reload? && Asked(Inbox(s, n), p) && p !in Pending(s, n);
      TalliedNext(s, k, open, e, n, p);
      AgainExactly(Next(s, e), if Delivers(s, e, n, p) then 0 else if approved then k + 1 else k,
                   !Delivers(s, e, n, p) && (open || again), evs[1..], n, p);
    }
  }

  /** A request is approved twice if and only if a restart comes while it waits and was already
      approved, and an approval that finds it authorised follows before the next delivery. */
  lemma ApprovedTwiceExactly(evs: seq<Event>, n: NodeId, p: NodeId)
    ensures ApprovedAgain(Empty, 0, evs, n, p) <==> ApprovedAcrossRestart(Empty, false, evs, n, p)
  {
    AgainExactly(Empty, 0, false, evs, n, p);
  }

  /** One request, approved before it was polled, is approved again after a restart. */
  lemma ApprovedTwice(n: NodeId, r: Request)
    ensures var evs := [Ask(n, r), Approve(n, r.from), Reload, Approve(n, r.from)];
            Approvals(Empty, evs, n, r.from) == 2 && CountFrom(Relayed(Empty, evs, n), r.from) == 1
  {
    var p, evs := r.from, [Ask(n, r), Approve(n, r.from), Reload, Approve(n, r.from)];
    var a := Next(Empty, evs[0]);
    var b := Next(a, evs[1]);
    var c := Next(b, evs[2]);
    assert evs[1..] == [Approve(n, p), Reload, Approve(n, p)];
    assert evs[1..][1..] == [Reload, Approve(n, p)] && evs[1..][1..][1..] == [Approve(n, p)];
    assert [Approve(n, p)][1..] == [];
    assert Inbox(a, n) == [r] == Inbox(b, n) && Inbox(b, n)[0].from == p;
    assert p in Pending(a, n) && p !in Pending(b, n);
    RestoredPending(b, n, p);
    RelayedFrom(Empty, evs, n, p);
    RelayedFrom(a, evs[1..], n, p);
    RelayedFrom(b, evs[1..][1..], n, p);
    RelayedFrom(c, evs[1..][1..][1..], n, p);
    assert Approvals(c, [Approve(n, p)], n, p) == 1;
    assert Approvals(b, [Reload, Approve(n, p)], n, p) == 1;
    assert Approvals(a, [Approve(n, p), Reload, Approve(n, p)], n, p) == 2;
  }

  // --- inboxes are bounded and free of duplicates -------------------------------------------------------

  ghost predicate DistinctSenders(inbox: seq<Request>) {
    forall i, j :: 0 <= i < j < |inbox| ==> inbox[i].from != inbox[j].from
  }

  /** Inboxes are bounded and have distinct senders; no authorisation set is kept empty. */
  ghost predicate Disciplined(s: Store) {
    && (forall n :: n in s.inbox ==> |s.inbox[n]| <= MAX_INBOX && DistinctSenders(s.inbox[n]))
    && (forall n :: n in s.pending ==> s.pending[n] != {})
  }

  lemma NextDisciplined(s: Store, e: Event)
    requires Disciplined(s)
    ensures Disciplined(Next(s, e))
  {
    if e.Reload? {
      forall n | n in s.inbox && s.inbox[n] != [] ensures Senders(s.inbox[n]) != {} {
        assert s.inbox[n][0].from in Senders(s.inbox[n]);
      }
    }
  }

  lemma {:induction false} RunDisciplined(s: Store, evs: seq<Event>)
    requires Disciplined(s)
    ensures Disciplined(Run(s, evs))
    decreases |evs|
  {
    if evs != [] {
      NextDisciplined(s, evs[0]);
      RunDisciplined(Next(s, evs[0]), evs[1..]);
    }
  }

  // --- requests, polls and approvals in order ------------------------------------------------------------

  /** What happened since the last delivered request of a peer: whether it was polled, and
      whether its authorisation was spent, by an approval or by a restart after the poll. */
  datatype Mark = Never | Last(polled: bool, spent: bool)

  function MarkAfter(m: Mark, s: Store, e: Event, n: NodeId, p: NodeId): Mark {
    if Delivers(s, e, n, p) then Last(false, false)
    else if m.Never? then Never
    else if e == Poll(n) then m.(polled := true)
    else if e == Approve(n, p) then m.(spent := true)
    else if e.Reload? then m.(spent := m.polled)
    else m
  }

  function MarkOf(m: Mark, s: Store, evs: seq<Event>, n: NodeId, p: NodeId): Mark
    decreases |evs|
  {
    if evs == [] then m else MarkOf(MarkAfter(m, s, evs[0], n, p), Next(s, evs[0]), evs[1..], n, p)
  }

  /** A request waits until it is polled, and is authorised until that is spent. */
  ghost predicate Reflects(m: Mark, s: Store, n: NodeId, p: NodeId) {
    && (Asked(Inbox(s, n), p) <==> m.Last? && !m.polled)
    && (p in Pending(s, n) <==> m.Last? && !m.spent)
  }

  lemma AskedSnoc(inbox: seq<Request>, r: Request, p: NodeId)
    ensures Asked(inbox + [r], p) <==> Asked(inbox, p) || r.from == p
  {
    var more := inbox + [r];
    assert more[|inbox|] == r;
    if Asked(inbox, p) {
      var i :| 0 <= i < |inbox| && inbox[i].from == p;
      assert more[i].from == p;
    }
  }

  lemma MarkReflects(m: Mark, s: Store, e: Event, n: NodeId, p: NodeId)
    requires Reflects(m, s, n, p)
    ensures Reflects(MarkAfter(m, s, e, n, p), Next(s, e), n, p)
  {
    if e.Ask? {
      AskedSnoc(Inbox(s, n), e.request, p);
    } else if e.Reload? {
      RestoredPending(s, n, p);
    }
  }

  /** The inbox and the authorisations are a function of the history of each peer. */
  lemma {:induction false} HistoryReflects(m: Mark, s: Store, evs: seq<Event>, n: NodeId, p: NodeId)
    requires Reflects(m, s, n, p)
    ensures Reflects(MarkOf(m, s, evs, n, p), Run(s, evs), n, p)
    decreases |evs|
  {
    if evs != [] {
      MarkReflects(m, s, evs[0], n, p);
      HistoryReflects(MarkAfter(m, s, evs[0], n, p), Next(s, evs[0]), evs[1..], n, p);
    }
  }

  function History(evs: seq<Event>, n: NodeId, p: NodeId): Mark {
    MarkOf(Never, Empty, evs, n, p)
  }

  /** A waiting sender is authorised, or was approved since its request was relayed. */
  lemma WaitingIsAuthorised(evs: seq<Event>, n: NodeId, p: NodeId)
    ensures Asked(Inbox(Run(Empty, evs), n), p) ==>
            p in Pending(Run(Empty, evs), n) || History(evs, n, p) == Last(false, true)
    ensures p in Pending(Run(Empty, evs), n) ==> History(evs, n, p).Last?
  {
    HistoryReflects(Never, Empty, evs, n, p);
  }

  /** A restart keeps inboxes and responses. It keeps a node's authorisations if and only if,
      for each peer, the last delivered request has been polled exactly when it has been approved. */
  lemma RestoreExactly(evs: seq<Event>, n: NodeId)
    ensures var s := Run(Empty, evs);
            var t := Next(s, Reload);
            && Inbox(t, n) == Inbox(s, n) && Responses(t, n) == Responses(s, n)
            && (Pending(t, n) == Pending(s, n) <==>
                forall p :: History(evs, n, p).Last? ==> (History(evs, n, p).polled <==> History(evs, n, p).spent))
  {
    var s := Run(Empty, evs);
    var t := Next(s, Reload);
    forall p ensures Reflects(History(evs, n, p), s, n, p)
             ensures p in Pending(t, n) <==> Asked(Inbox(s, n), p) {
      HistoryReflects(Never, Empty, evs, n, p);
      RestoredPending(s, n, p);
    }
    if Pending(t, n) == Pending(s, n) {
      forall p | History(evs, n, p).Last? ensures History(evs, n, p).polled <==> History(evs, n, p).spent {
        assert Reflects(History(evs, n, p), s, n, p);
        assert p in Pending(t, n) <==> p in Pending(s, n);
      }
    }
  }

  /** A request that was polled and not yet approved can no longer be approved after a restart. */
  lemma PolledAuthorisationLost(n: NodeId, r: Request)
    ensures var s := Run(Empty, [Ask(n, r), Poll(n)]);
            r.from in Pending(s, n) && r.from !in Pending(Next(s, Reload), n)
  {
    var evs := [Ask(n, r), Poll(n)];
    assert evs[1..] == [Poll(n)] && evs[1..][1..] == [];
    var a := Next(Empty, Ask(n, r));
    var b := Next(a, Poll(n));
    assert Run(a, [Poll(n)]) == Run(b, []) == b;
    assert evs[0] == Ask(n, r) && Run(Empty, evs) == Run(a, evs[1..]);
    assert r.from in Pending(a, n) && Inbox(b, n) == [];
    RestoredPending(b, n, r.from);
  }

  lemma SendersSnoc(a: seq<Request>, i: nat)
    requires i < |a|
    ensures Senders(a[..i + 1]) == Senders(a[..i]) + {a[i].from}
  {
    var l, r := Senders(a[..i + 1]), Senders(a[..i]) + {a[i].from};
    forall p | p in r ensures p in l {
      if p == a[i].from { assert a[..i + 1][i].from == p; } else {
        var j :| 0 <= j < i && a[..i][j].from == p;
        assert a[..i + 1][j].from == p;
      }
    }
    forall p | p in l ensures p in r {
      var j :| 0 <= j < i + 1 && a[..i + 1][j].from == p;
      assert j < i ==> a[..i][j].from == p;
    }
  }

  /** One authorisation for each waiting request. */
  function Authorised(pending: map<NodeId, set<NodeId>>, n: NodeId, waiting: seq<Request>): map<NodeId, set<NodeId>> {
    if waiting == [] then pending
    else pending[n := (if n in pending then pending[n] else {}) + Senders(waiting)]
  }

  lemma AuthorisedSnoc(pending: map<NodeId, set<NodeId>>, n: NodeId, waiting: seq<Request>, i: nat)
    requires i < |waiting|
    ensures var done := Authorised(pending, n, waiting[..i]);
            Authorised(pending, n, waiting[..i + 1])
            == done[n := (if n in done then done[n] else {}) + {waiting[i].from}]
  {
    var done, had := Authorised(pending, n, waiting[..i]), if n in pending then pending[n] else {};
    SendersSnoc(waiting, i);
    assert had + Senders(waiting[..i + 1]) == (had + Senders(waiting[..i])) + {waiting[i].from};
    if i == 0 {
      assert had + Senders(waiting[..i]) == had;
    }
    assert (if n in done then done[n] else {}) == had + Senders(waiting[..i]);
  }

  lemma RestoreOne(saved: map<NodeId, seq<Request>>, rest: set<NodeId>, n: NodeId)
    requires n in rest && rest <= saved.Keys
    ensures saved - (rest - {n}) == (saved - rest)[n := saved[n]]
    ensures Authorisations((saved - rest)[n := saved[n]])
            == Authorised(Authorisations(saved - rest), n, saved[n])
  {
    var done, waiting := saved - rest, saved[n];
    assert saved - (rest - {n}) == done[n := waiting];
    var l, r := Authorisations(done[n := waiting]), Authorised(Authorisations(done), n, waiting);
    assert {} + Senders(waiting) == Senders(waiting);
    assert l.Keys == r.Keys;
  }

  // --- the object --------------------------------------------------------------------------------------

  class HandshakeState {
    var inbox: map<NodeId, seq<Request>>
    var responses: map<NodeId, seq<Response>>
    var pending: map<NodeId, set<NodeId>>

    ghost function Model(): Store reads this { Store(inbox, responses, pending) }

    constructor ()
      ensures Model() == Empty && Disciplined(Model())
    {
      inbox, responses, pending := map[], map[], map[];
    }

    method RelayRequest(to: NodeId, from: NodeId, justification: string, now: int) returns (outcome: Outcome)
      modifies this
      ensures outcome == RelayOutcome(old(Model()), to, from)
      ensures outcome == InboxFull <==> to in old(inbox) && |old(inbox)[to]| >= 100
      ensures outcome == AlreadyPending <==>
              outcome != InboxFull && to in old(inbox)
              && exists i :: 0 <= i < |old(inbox)[to]| && old(inbox)[to][i].from == from
      ensures Model() == Relay(old(Model()), to, Request(from, justification, now))
    {
      var waiting := if to in inbox then inbox[to] else [];
      if |waiting| >= MAX_INBOX { return InboxFull; }
      var i := 0;
      while i < |waiting|
        invariant i <= |waiting|
        invariant forall j :: 0 <= j < i ==> waiting[j].from != from
      {
        if waiting[i].from == from { return AlreadyPending; }
        i := i + 1;
      }
      inbox := inbox[to := waiting + [Request(from, justification, now)]];
      if to !in pending { pending := pending[to := {}]; }
      pending := pending[to := pending[to] + {from}];
      assert pending == old(pending)[to := Pending(old(Model()), to) + {from}];
      return Delivered;
    }

    method PopAll(node: NodeId) returns (requests: seq<Request>, answers: seq<Response>)
      modifies this
      ensures requests == Inbox(old(Model()), node) && answers == Responses(old(Model()), node)
      ensures Model() == Pop(old(Model()), node)
    {
      requests := if node in inbox then inbox[node] else [];
      inbox := inbox - {node};
      answers := if node in responses then responses[node] else [];
      responses := responses - {node};
    }

    method Take(node: NodeId, peer: NodeId) returns (found: bool)
      modifies this
      ensures found <==> peer in Pending(old(Model()), node)
      ensures Model() == TakePending(old(Model()), node, peer)
    {
      if node !in pending || peer !in pending[node] { return false; }
      var left := pending[node] - {peer};
      pending := pending[node := left];
      if left == {} {
        pending := pending - {node};
        assert pending == old(pending) - {node};
      }
      return true;
    }

    /** The inner loop of the restore: one authorisation per waiting request. */
    method Authorise(node: NodeId, waiting: seq<Request>)
      modifies this`pending
      ensures pending == Authorised(old(pending), node, waiting)
    {
      var i := 0;
      while i < |waiting|
        invariant i <= |waiting|
        invariant pending == Authorised(old(pending), node, waiting[..i])
      {
        ghost var before := pending;
        if node !in pending { pending := pending[node := {}]; }
        pending := pending[node := pending[node] + {waiting[i].from}];
        assert pending == before[node := (if node in before then before[node] else {}) + {waiting[i].from}];
        AuthorisedSnoc(old(pending), node, waiting, i);
        i := i + 1;
      }
      assert waiting[..i] == waiting;
    }

    /** Loads saved inboxes into a new store and authorises every request that waits. */
    method RestoreFrom(saved: map<NodeId, seq<Request>>, answers: map<NodeId, seq<Response>>)
      requires Model() == Empty
      modifies this
      ensures Model() == Restore(saved, answers)
    {
      var rest := saved.Keys;
      while rest != {}
        invariant rest <= saved.Keys && inbox == saved - rest && pending == Authorisations(inbox)
        decreases |rest|
      {
        var node :| node in rest;
        RestoreOne(saved, rest, node);
        inbox := inbox[node := saved[node]];
        Authorise(node, saved[node]);
        rest := rest - {node};
      }
      responses := answers;
      assert saved - rest == saved;
    }

    method Queue(peer: NodeId, answer: Response)
      modifies this
      ensures Model() == AppendResponse(old(Model()), peer, answer)
    {
      responses := responses[peer := (if peer in responses then responses[peer] else []) + [answer]];
    }
  }
}
