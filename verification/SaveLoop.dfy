/** The coalescing save loop: mutators signal through a one-slot channel, the loop flushes
    on its ticker, shutdown drains the channel once, and operators may flush on demand beside it. */
module SaveLoop {

  type Mutation = nat

  /** `Entering` lies between the decision to flush and the copy of the state. */
  datatype Phase =
    | Waiting
    | Entering(final: bool)
    | Flushing(copied: set<Mutation>, final: bool)
    | Stopped

  /** A flush on demand under way; `overtaken` once the loop has written a snapshot meanwhile. */
  datatype OnDemand = OnDemand(copied: set<Mutation>, overtaken: bool)

  /** `applied`, `triggered` and `saved` are the mutations made, signalled, and contained in
      the snapshot on disk; `drained` those signalled when shutdown drained the channel;
      `clean` says the shutdown flush succeeded or was not needed. */
  datatype State = State(
    applied: set<Mutation>,
    triggered: set<Mutation>,
    saved: set<Mutation>,
    token: bool,
    dirty: bool,
    phase: Phase,
    drained: set<Mutation>,
    clean: bool,
    manual: map<nat, OnDemand>)

  const Initial := State({}, {}, {}, false, false, Waiting, {}, false, map[])

  /** `Refuse` is the return of a flush that an open breaker turned away. */
  datatype Step =
    | Mutate(m: Mutation)
    | Trigger(m: Mutation)
    | Receive
    | Tick
    | Copy
    | Refuse
    | Finish(ok: bool)
    | Shutdown
    | CopyOnDemand(id: nat)
    | FinishOnDemand(id: nat)

  predicate Enabled(s: State, e: Step) {
    match e
    case Mutate(m) => true
    case Trigger(m) => m in s.applied
    case Receive => s.phase.Waiting? && s.token
    case Tick => s.phase.Waiting?
    case Copy => s.phase.Entering?
    case Refuse => s.phase.Entering?
    case Finish(_) => s.phase.Flushing?
    case Shutdown => s.phase.Waiting?
    case CopyOnDemand(id) => id !in s.manual
    case FinishOnDemand(id) => id in s.manual
  }

  function Overtake(manual: map<nat, OnDemand>): map<nat, OnDemand> {
    map id | id in manual :: manual[id].(overtaken := true)
  }

  /** The loop after a flush returned without an error, or with one. */
  function Returned(s: State, final: bool, ok: bool, written: bool): State {
    if final then s.(phase := Stopped, clean := written)
    else s.(phase := Waiting, dirty := s.dirty && !ok)
  }

  function Next(s: State, e: Step): State
    requires Enabled(s, e)
  {
    match e
    case Mutate(m) => s.(applied := s.applied + {m})
    case Trigger(m) => s.(triggered := s.triggered + {m}, token := true)
    case Receive => s.(token := false, dirty := true)
    case Tick => if s.dirty then s.(phase := Entering(false)) else s
    case Copy => s.(phase := Flushing(s.applied, s.phase.final))
    case Refuse => Returned(s, s.phase.final, true, false)
    case Finish(ok) =>
      Returned(if ok then s.(saved := s.phase.copied, manual := Overtake(s.manual)) else s, s.phase.final, ok, ok)
    case Shutdown =>
      var dirty := s.dirty || s.token;
      s.(token := false, dirty := dirty, drained := s.triggered, clean := !dirty,
         phase := if dirty then Entering(true) else Stopped)
    case CopyOnDemand(id) => s.(manual := s.manual[id := OnDemand(s.applied, false)])
    case FinishOnDemand(id) => s.(saved := s.manual[id].copied, manual := s.manual - {id})
  }

  ghost predicate Legal(s: State, steps: seq<Step>)
    decreases |steps|
  {
    steps == [] || (Enabled(s, steps[0]) && Legal(Next(s, steps[0]), steps[1..]))
  }

  ghost function Run(s: State, steps: seq<Step>): State
    requires Legal(s, steps)
    decreases |steps|
  {
    if steps == [] then s else Run(Next(s, steps[0]), steps[1..])
  }

  // --- no lost save --------------------------------------------------------------------------

  /** A mutation missing from the copy `c` still has a save ahead of it. */
  ghost predicate Ahead(s: State, c: set<Mutation>, m: Mutation) {
    m in s.applied && m !in c ==> s.dirty || s.token || m !in s.triggered
  }

  ghost predicate NoneLost(s: State) {
    forall m :: Ahead(s, s.saved, m)
  }

  ghost predicate ManualOk(s: State, d: OnDemand) {
    && d.copied <= s.applied
    && (!d.overtaken ==> (!s.phase.Stopped? ==> forall m :: Ahead(s, d.copied, m))
                         && (s.phase.Stopped? && s.clean ==> s.drained <= d.copied))
  }

  ghost predicate Inv(s: State) {
    && s.triggered <= s.applied && s.saved <= s.applied && s.drained <= s.triggered
    && (!s.phase.Stopped? ==> NoneLost(s))
    && (s.phase.Entering? || s.phase.Flushing? ==> s.dirty)
    && (s.phase.Flushing? ==> s.phase.copied <= s.applied)
    && (s.phase.Flushing? && !s.phase.final ==>
          forall m :: m in s.applied && m !in s.phase.copied ==> s.token || m !in s.triggered)
    && (s.phase.Flushing? && s.phase.final ==> s.drained <= s.phase.copied)
    && (s.phase.Stopped? && s.clean ==> s.drained <= s.saved)
    && (forall id :: id in s.manual ==> ManualOk(s, s.manual[id]))
  }

  /** The steps that keep the promise: the breaker is closed, and a flush on demand ends
      before the loop writes a snapshot of its own. */
  ghost predicate Timely(s: State, e: Step)
    requires Enabled(s, e)
  {
    e != Refuse && (e.FinishOnDemand? ==> !s.manual[e.id].overtaken)
  }

  lemma ManualKeeps(s: State, e: Step, id: nat)
    requires Inv(s) && Enabled(s, e) && Timely(s, e) && id in Next(s, e).manual
    ensures ManualOk(Next(s, e), Next(s, e).manual[id])
  {
    var t := Next(s, e);
    if id in s.manual && !t.manual[id].overtaken {
      var d := s.manual[id];
      assert ManualOk(s, d);
      if t.phase.Stopped? && t.clean {
        forall m | m in t.drained ensures m in d.copied { assert !s.phase.Stopped? ==> Ahead(s, d.copied, m); }
      }
      if !t.phase.Stopped? {
        forall m ensures Ahead(t, d.copied, m) { assert Ahead(s, d.copied, m); }
      }
    }
  }

  lemma SavedKeeps(s: State, e: Step)
    requires Inv(s) && Enabled(s, e) && Timely(s, e)
    ensures var t := Next(s, e); !t.phase.Stopped? ==> NoneLost(t)
    ensures var t := Next(s, e); t.phase.Stopped? && t.clean ==> t.drained <= t.saved
  {
    var t := Next(s, e);
    assert e.FinishOnDemand? ==> ManualOk(s, s.manual[e.id]);
    if !t.phase.Stopped? {
      forall m ensures Ahead(t, t.saved, m) {
        assert Ahead(s, s.saved, m);
        assert e.FinishOnDemand? ==> Ahead(s, s.manual[e.id].copied, m);
      }
    } else if s.phase.Waiting? {
      forall m | m in t.drained ensures m in t.saved { assert Ahead(s, s.saved, m); }
    }
  }

  lemma StepKeeps(s: State, e: Step)
    requires Inv(s) && Enabled(s, e) && Timely(s, e)
    ensures Inv(Next(s, e))
  {
    SavedKeeps(s, e);
    forall id | id in Next(s, e).manual ensures ManualOk(Next(s, e), Next(s, e).manual[id]) { ManualKeeps(s, e, id); }
  }

  ghost predicate AllTimely(s: State, steps: seq<Step>)
    requires Legal(s, steps)
    decreases |steps|
  {
    steps == [] || (Timely(s, steps[0]) && AllTimely(Next(s, steps[0]), steps[1..]))
  }

  lemma {:induction false} RunKeeps(s: State, steps: seq<Step>)
    requires Inv(s) && Legal(s, steps) && AllTimely(s, steps)
    ensures Inv(Run(s, steps))
    decreases |steps|
  {
    if steps != [] {
      StepKeeps(s, steps[0]);
      RunKeeps(Next(s, steps[0]), steps[1..]);
    }
  }

  /** Over every interleaving, flushes on demand included, a mutation missing from the snapshot
      on disk has the dirty flag, a token, or its own signal still ahead of it while the loop
      runs; after a clean shutdown every mutation signalled before the drain is in it. */
  lemma NoLostSave(steps: seq<Step>)
    requires Legal(Initial, steps) && AllTimely(Initial, steps)
    ensures var s := Run(Initial, steps);
            && (!s.phase.Stopped? ==> NoneLost(s))
            && (s.phase.Stopped? && s.clean ==> s.drained <= s.saved)
  {
    RunKeeps(Initial, steps);
  }

  /** A failed periodic flush changes nothing the loop goes by. */
  lemma FailedFlushRetries(s: State)
    requires Inv(s) && s.phase.Flushing? && !s.phase.final
    ensures Next(s, Finish(false)) == s.(phase := Waiting) && Next(s, Finish(false)).dirty
  {
  }

  /** Once signalled, a mutation is saved by one receive, one tick and one successful flush. */
  lemma SaveFollows(s: State, m: Mutation)
    requires Inv(s) && s.phase.Waiting? && m in s.triggered
    ensures var a := if s.token then Next(s, Receive) else s;
            var b := Next(a, Tick);
            m in (if b.phase.Entering? then Next(Next(b, Copy), Finish(true)) else b).saved
  {
    assert Ahead(s, s.saved, m);
  }

  // --- where the promise ends ------------------------------------------------------------------

  /** A flush the open breaker turned away keeps the promise exactly when a token waits or
      every signalled mutation is already on disk. */
  lemma BreakerLosesExactly(s: State)
    requires Inv(s) && s.phase.Entering? && !s.phase.final
    ensures NoneLost(Next(s, Refuse)) <==> s.token || s.triggered <= s.saved
  {
    var t := Next(s, Refuse);
    if NoneLost(t) {
      forall m | m in s.triggered && !s.token ensures m in s.saved { assert Ahead(t, t.saved, m); }
    }
  }

  /** A flush on demand that ends late keeps the promise exactly when the loop is dirty, a
      token waits, or its copy holds every signalled mutation. */
  lemma OnDemandLosesExactly(s: State, id: nat)
    requires Inv(s) && id in s.manual && !s.phase.Stopped?
    ensures NoneLost(Next(s, FinishOnDemand(id))) <==>
            s.dirty || s.token || s.triggered <= s.manual[id].copied
  {
    var t := Next(s, FinishOnDemand(id));
    if NoneLost(t) {
      forall m | m in s.triggered && !s.token && !s.dirty ensures m in t.saved { assert Ahead(t, t.saved, m); }
    }
  }

  lemma RunCons(s: State, e: Step, rest: seq<Step>)
    requires Enabled(s, e) && Legal(Next(s, e), rest)
    ensures Legal(s, [e] + rest) && Run(s, [e] + rest) == Run(Next(s, e), rest)
  {
    assert ([e] + rest)[1..] == rest;
  }

  /** A loop that decided to flush for one signalled mutation. */
  function Deciding(manual: map<nat, OnDemand>): State {
    State({1}, {1}, {}, false, true, Entering(false), {}, false, manual)
  }

  lemma Signalled(s: State, rest: seq<Step>)
    requires s == Initial.(manual := s.manual) && Legal(Deciding(s.manual), rest)
    ensures var steps := [Mutate(1), Trigger(1), Receive, Tick] + rest;
            Legal(s, steps) && Run(s, steps) == Run(Deciding(s.manual), rest)
  {
    var a := Next(s, Mutate(1));
    var b := Next(a, Trigger(1));
    var c := Next(b, Receive);
    assert a.applied == {1} == b.triggered;
    assert Next(c, Tick) == Deciding(s.manual);
    RunCons(c, Tick, rest);
    RunCons(b, Receive, [Tick] + rest);
    RunCons(a, Trigger(1), [Receive] + ([Tick] + rest));
    RunCons(s, Mutate(1), [Trigger(1)] + ([Receive] + ([Tick] + rest)));
    assert [Mutate(1), Trigger(1), Receive, Tick] + rest == [Mutate(1)] + ([Trigger(1)] + ([Receive] + ([Tick] + rest)));
  }

  /** One mutation, its signal and one tick with the breaker open: nothing will save it. */
  lemma BreakerLosesSave()
    ensures exists steps :: Legal(Initial, steps) && Run(Initial, steps).phase.Waiting? && !NoneLost(Run(Initial, steps))
  {
    RunCons(Deciding(map[]), Refuse, []);
    assert [Refuse] + [] == [Refuse];
    Signalled(Initial, [Refuse]);
    assert !Ahead(Run(Initial, [Mutate(1), Trigger(1), Receive, Tick] + [Refuse]), {}, 1);
  }

  /** The loop writes the mutation, then the older copy is written over it. */
  lemma LateFinish(manual: map<nat, OnDemand>)
    requires 0 in manual && manual[0].copied == {}
    ensures var rest := [Copy, Finish(true), FinishOnDemand(0)];
            Legal(Deciding(manual), rest) && var e := Run(Deciding(manual), rest);
            e.phase.Waiting? && !e.dirty && !e.token && e.saved == {} && e.applied == e.triggered == {1}
  {
    var f := Next(Deciding(manual), Copy);
    var g := Next(f, Finish(true));
    RunCons(g, FinishOnDemand(0), []);
    RunCons(f, Finish(true), [FinishOnDemand(0)] + []);
    RunCons(Deciding(manual), Copy, [Finish(true)] + ([FinishOnDemand(0)] + []));
    assert [Copy, Finish(true), FinishOnDemand(0)] == [Copy] + ([Finish(true)] + ([FinishOnDemand(0)] + []));
  }

  /** A flush on demand copies, the loop saves a later mutation, and the older copy is then
      written over it: the mutation is gone from disk and nothing will save it. */
  lemma OldCopyOverwrites()
    ensures exists steps ::
              && Legal(Initial, steps) && Refuse !in steps
              && Run(Initial, steps).phase.Waiting? && !NoneLost(Run(Initial, steps))
  {
    var a := Next(Initial, CopyOnDemand(0));
    var rest := [Copy, Finish(true), FinishOnDemand(0)];
    LateFinish(a.manual);
    Signalled(a, rest);
    var later := [Mutate(1), Trigger(1), Receive, Tick] + rest;
    RunCons(Initial, CopyOnDemand(0), later);
    var e := Run(Initial, [CopyOnDemand(0)] + later);
    assert !Ahead(e, e.saved, 1);
  }

  // --- the loop's own variables -----------------------------------------------------------------

  /** The channel slot and the loop's flag, kept in step with the machine above. */
  class Saver {
    var token: bool
    var dirty: bool
    ghost var model: State

    ghost predicate Matches() reads this { token == model.token && dirty == model.dirty }

    ghost predicate Valid() reads this { Matches() && Inv(model) }

    constructor ()
      ensures Valid() && model == Initial
    {
      token, dirty, model := false, false, Initial;
    }

    /** What other threads do besides signalling. */
    ghost method Elsewhere(e: Step)
      requires Valid() && Enabled(model, e) && Timely(model, e)
      requires e.Mutate? || e.Copy? || e.CopyOnDemand? || e.FinishOnDemand?
      modifies this`model
      ensures Valid() && model == Next(old(model), e)
    {
      StepKeeps(model, e);
      model := Next(model, e);
    }

    /** Non-blocking send: a full channel already holds the signal. */
    method TriggerSave(ghost m: Mutation)
      requires Valid() && m in model.applied
      modifies this
      ensures Valid() && model == Next(old(model), Trigger(m))
    {
      StepKeeps(model, Trigger(m));
      if !token { token := true; }
      model := Next(model, Trigger(m));
    }

    /** The branch of the select on the save channel. */
    method OnSignal()
      requires Valid() && model.phase.Waiting? && token
      modifies this
      ensures Valid() && model == Next(old(model), Receive)
    {
      StepKeeps(model, Receive);
      token, dirty := false, true;
      model := Next(model, Receive);
    }

    /** The branch on the ticker, up to the flush. Without one, every signalled mutation is on
        disk or its signal still waits. */
    method OnTick() returns (flush: bool)
      requires Valid() && model.phase.Waiting?
      modifies this`model
      ensures Valid() && model == Next(old(model), Tick) && (flush <==> model.phase.Entering?)
      ensures !flush && !token ==> model.triggered <= model.saved
    {
      StepKeeps(model, Tick);
      flush := dirty;
      model := Next(model, Tick);
      if !flush && !token {
        forall m | m in model.triggered ensures m in model.saved { assert Ahead(model, model.saved, m); }
      }
    }

    /** The same branch after the flush: the loop sees only the error, so a refused flush
        clears the flag like a successful one. */
    method OnReturn(failed: bool, ghost how: Step)
      requires Valid() && (how.Finish? || how.Refuse?) && Enabled(model, how) && !model.phase.final
      requires failed <==> how == Finish(false)
      modifies this
      ensures Matches() && model == Next(old(model), how)
      ensures how.Finish? ==> Valid()
      ensures NoneLost(model) <==> how.Finish? || model.token || model.triggered <= model.saved
    {
      if how.Refuse? {
        BreakerLosesExactly(model);
      } else {
        StepKeeps(model, how);
      }
      if !failed { dirty := false; }
      model := Next(model, how);
    }

    /** The whole branch on the ticker, around one flush that saw no other thread. After a flush
        that was neither refused nor failed, everything triggered is on disk or a signal waits. */
    method TickBranch(failed: bool, ghost refused: bool) returns (flush: bool)
      requires Valid() && model.phase.Waiting? && !(failed && refused)
      modifies this
      ensures Matches() && flush == old(dirty)
      ensures !flush ==> model == old(model)
      ensures flush ==>
                var entered := Next(old(model), Tick);
                && entered.phase.Entering?
                && model == if refused then Next(entered, Refuse) else Next(Next(entered, Copy), Finish(!failed))
      ensures !refused && !failed ==> token || model.triggered <= model.saved
    {
      flush := OnTick();
      if flush {
        if !refused { Elsewhere(Copy); }
        OnReturn(failed, if refused then Refuse else Finish(!failed));
      }
    }

    /** The branch on shutdown, up to the last flush. Without one, everything signalled before
        the drain is on disk. */
    method DrainAndStop() returns (flush: bool)
      requires Valid() && model.phase.Waiting?
      modifies this
      ensures Valid() && model == Next(old(model), Shutdown) && (flush <==> model.phase.Entering?)
      ensures model.drained == old(model.triggered)
      ensures !flush ==> model.drained <= model.saved
    {
      StepKeeps(model, Shutdown);
      if token {
        token, dirty := false, true;
      }
      flush := dirty;
      model := Next(model, Shutdown);
    }
  }
}
