/** The promise that replay skips a bad entry and goes on with the next. An entry that cannot
    be decoded is skipped; one whose apply function fails ends the replay. */
module SkippedEntries {
  import opened Registry
  import opened DeltaReplay

  function ApplyAll(s: State, log: seq<Entry>): State
    decreases |log|
  {
    if log == [] then s else ApplyAll(ApplyEntry(s, log[0]), log[1..])
  }

  /** The entries whose apply function succeeds, which the promise says are applied. */
  function Good(log: seq<Entry>): seq<Entry> {
    if log == [] then [] else (if Malformed(log[0]) then [] else [log[0]]) + Good(log[1..])
  }

  /** The entries replay applies. */
  function Applied(log: seq<Entry>): seq<Entry> {
    if log == [] || Malformed(log[0]) then [] else [log[0]] + Applied(log[1..])
  }

  lemma {:induction false} ReplayApplies(s: State, log: seq<Entry>)
    ensures ApplyLog(s, log) == ApplyAll(s, Applied(log))
    decreases |log|
  {
    if log != [] && !Malformed(log[0]) {
      ReplayApplies(ApplyEntry(s, log[0]), log[1..]);
      assert ([log[0]] + Applied(log[1..]))[1..] == Applied(log[1..]);
    }
  }

  /** A good entry comes after a bad one. */
  ghost predicate GoodAfterBad(log: seq<Entry>) {
    exists i, j :: 0 <= i < j < |log| && Malformed(log[i]) && !Malformed(log[j])
  }

  lemma {:induction false} AllBad(log: seq<Entry>)
    ensures Good(log) == [] <==> forall j :: 0 <= j < |log| ==> Malformed(log[j])
  {
    if log != [] {
      AllBad(log[1..]);
      assert forall j :: 0 < j < |log| ==> log[j] == log[1..][j - 1];
    }
  }

  /** Replay applies the entries it promises to if and only if no good entry follows a bad one. */
  lemma {:induction false} SkipsExactly(log: seq<Entry>)
    ensures Applied(log) == Good(log) <==> !GoodAfterBad(log)
  {
    if log != [] {
      var tail := log[1..];
      assert forall j :: 0 < j < |log| ==> log[j] == tail[j - 1];
      if Malformed(log[0]) {
        AllBad(tail);
        if j :| 0 <= j < |tail| && !Malformed(tail[j]) { assert !Malformed(log[j + 1]); }
      } else {
        SkipsExactly(tail);
        if i, j :| 0 <= i < j < |tail| && Malformed(tail[i]) && !Malformed(tail[j]) {
          assert Malformed(log[i + 1]) && !Malformed(log[j + 1]);
        }
        if GoodAfterBad(log) {
          var i, j :| 0 <= i < j < |log| && Malformed(log[i]) && !Malformed(log[j]);
          assert Malformed(tail[i - 1]) && !Malformed(tail[j - 1]);
        }
        if Applied(log) == Good(log) {
          assert Applied(tail) == Applied(log)[1..] && Good(tail) == Good(log)[1..];
        }
      }
    }
  }

  /** So without such an entry the promise is kept, from every state. */
  lemma KeptWithout(s: State, log: seq<Entry>)
    requires !GoodAfterBad(log)
    ensures ApplyLog(s, log) == ApplyAll(s, Good(log))
  {
    ReplayApplies(s, log);
    SkipsExactly(log);
  }

  const Fine := RegisterEntry(1, "k1", "", "", Endpoint("", [], "", false), 0)

  /** Any bad entry, a payload that does not decode or a registration without an id, and a good
      one behind it, which is lost. */
  lemma GoodEntryLost(bad: Entry)
    requires Malformed(bad)
    ensures !Malformed(Fine) && GoodAfterBad([bad, Fine])
    ensures 1 !in ApplyLog(Initial, [bad, Fine]).nodes && 1 in ApplyAll(Initial, Good([bad, Fine])).nodes
  {
    var log := [bad, Fine];
    assert Malformed(log[0]) && !Malformed(log[1]);
    assert log[1..] == [Fine] && [Fine][1..] == [];
    var none: seq<Entry> := [];
    assert Good([Fine]) == [Fine] + Good([]) && [Fine] + none == [Fine];
    assert Good(log) == none + Good([Fine]) && none + [Fine] == [Fine];
    assert ApplyAll(ApplyEntry(Initial, Fine), []) == ApplyEntry(Initial, Fine);
  }
}
