/** The sharded set of trust pairs: canonical keys, the shards against one plain set,
    and the revision counter. */
module TrustPairs {

  const SHARDS: nat := 256

  // --- canonical keys ----------------------------------------------------------------------

  function Digit(d: nat): char
    requires d < 10
  {
    "0123456789"[d]
  }

  /** Decimal notation without leading zeros. */
  function Decimal(n: nat): (s: string)
    ensures |s| >= 1 && forall i :: 0 <= i < |s| ==> '0' <= s[i] <= '9'
  {
    if n < 10 then [Digit(n)] else Decimal(n / 10) + [Digit(n % 10)]
  }

  function Value(s: string): nat
    requires forall i :: 0 <= i < |s| ==> '0' <= s[i] <= '9'
  {
    if s == [] then 0 else 10 * Value(s[..|s| - 1]) + (s[|s| - 1] as int - '0' as int)
  }

  lemma DigitValue(d: nat)
    requires d < 10
    ensures Digit(d) as int - '0' as int == d
  {
  }

  lemma {:induction false} ValueOfDecimal(n: nat)
    ensures Value(Decimal(n)) == n
  {
    DigitValue(n % 10);
    if n < 10 {
      assert [Digit(n)][..0] == [];
    } else {
      ValueOfDecimal(n / 10);
      var front := Decimal(n / 10);
      assert (front + [Digit(n % 10)])[..|front|] == front;
    }
  }

  /** "min:max". */
  function PairKey(a: nat, b: nat): string {
    if a > b then Decimal(b) + ":" + Decimal(a) else Decimal(a) + ":" + Decimal(b)
  }

  lemma FirstColon(a: string, b: string)
    requires ':' !in a
    ensures (a + ":" + b)[|a|] == ':' && forall i :: 0 <= i < |a| ==> (a + ":" + b)[i] != ':'
  {
    forall i | 0 <= i < |a| ensures (a + ":" + b)[i] != ':' { assert (a + ":" + b)[i] == a[i]; }
  }

  lemma SplitUnique(a: string, b: string, c: string, d: string)
    requires a + ":" + b == c + ":" + d
    requires ':' !in a && ':' !in c
    ensures a == c && b == d
  {
    var l, r := a + ":" + b, c + ":" + d;
    FirstColon(a, b);
    FirstColon(c, d);
    assert |a| == |c|;
    assert a == l[..|a|] && c == r[..|c|];
    assert b == l[|a| + 1..] && d == r[|c| + 1..];
  }

  /** The key is symmetric and identifies the unordered pair. */
  lemma PairKeyInjective(a: nat, b: nat, c: nat, d: nat)
    ensures PairKey(a, b) == PairKey(c, d) <==> (a == c && b == d) || (a == d && b == c)
  {
    var lo, hi := if a > b then b else a, if a > b then a else b;
    var lo', hi' := if c > d then d else c, if c > d then c else d;
    if PairKey(a, b) == PairKey(c, d) {
      assert PairKey(a, b) == Decimal(lo) + ":" + Decimal(hi);
      assert PairKey(c, d) == Decimal(lo') + ":" + Decimal(hi');
      SplitUnique(Decimal(lo), Decimal(hi), Decimal(lo'), Decimal(hi'));
      ValueOfDecimal(lo);
      ValueOfDecimal(lo');
      ValueOfDecimal(hi);
      ValueOfDecimal(hi');
    }
  }

  // --- the hash ------------------------------------------------------------------------------

  const BASIS: bv32 := 2166136261
  const PRIME: bv32 := 16777619

  function Mix(h: bv32, c: char): bv32 {
    (h ^ ((c as int % 256) as bv32)) * PRIME
  }

  function HashFrom(h: bv32, key: string): bv32
    decreases |key|
  {
    if key == "" then h else HashFrom(Mix(h, key[0]), key[1..])
  }

  function ShardOf(key: string): (i: nat)
    ensures i < SHARDS
  {
    (HashFrom(BASIS, key) & 255) as nat
  }

  /** The hash loop computes the shard the specification names. */
  method ShardIndex(key: string) returns (i: nat)
    ensures i == ShardOf(key)
  {
    var h := BASIS;
    var j := 0;
    while j < |key|
      invariant j <= |key|
      invariant HashFrom(h, key[j..]) == HashFrom(BASIS, key)
    {
      assert key[j..][0] == key[j] && key[j..][1..] == key[j + 1..];
      h := Mix(h, key[j]);
      j := j + 1;
    }
    i := (h & 255) as nat;
  }

  lemma HashOfThree(a: char, b: char, c: char)
    ensures HashFrom(BASIS, [a, b, c]) == Mix(Mix(Mix(BASIS, a), b), c)
  {
    assert [a, b, c][1..] == [b, c] && [b, c][1..] == [c] && [c][1..] == [];
    assert HashFrom(Mix(BASIS, a), [b, c]) == HashFrom(Mix(Mix(BASIS, a), b), [c]);
  }

  lemma FirstMixes()
    ensures Mix(BASIS, '1') == 873244444 && Mix(873244444, ':') == 367730898
  {
  }

  lemma LastOfLow()
    ensures Mix(367730898, '3') & 255 == 51
  {
  }

  lemma LastOfHigh()
    ensures Mix(367730898, '2') & 255 == 160
  {
  }

  /** There are pairs whose keys live in different shards. */
  lemma TwoShards() returns (low: string, high: string)
    ensures ShardOf(low) < ShardOf(high)
  {
    low, high := "1:3", "1:2";
    FirstMixes();
    LastOfLow();
    LastOfHigh();
    HashOfThree('1', ':', '2');
    HashOfThree('1', ':', '3');
    assert ShardOf(low) == 51 && ShardOf(high) == 160;
  }

  // --- shards as one set -----------------------------------------------------------------------

  /** The union of the first `n` shards. */
  ghost function Upto(shards: seq<set<string>>, n: nat): set<string>
    requires n <= |shards|
  {
    if n == 0 then {} else Upto(shards, n - 1) + shards[n - 1]
  }

  lemma {:induction false} UptoMember(shards: seq<set<string>>, n: nat, key: string)
    requires n <= |shards|
    ensures key in Upto(shards, n) <==> exists i :: 0 <= i < n && key in shards[i]
    decreases n
  {
    if n > 0 { UptoMember(shards, n - 1, key); }
  }

  /** Every key lives in the shard its hash names. */
  ghost predicate Homed(shards: seq<set<string>>) {
    |shards| == SHARDS && forall i, key :: 0 <= i < SHARDS && key in shards[i] ==> ShardOf(key) == i
  }

  lemma HomedMember(shards: seq<set<string>>, key: string)
    requires Homed(shards)
    ensures key in Upto(shards, SHARDS) <==> key in shards[ShardOf(key)]
  {
    UptoMember(shards, SHARDS, key);
  }

  lemma HomedDisjoint(shards: seq<set<string>>, n: nat)
    requires Homed(shards) && n < SHARDS
    ensures Upto(shards, n) !! shards[n]
  {
    forall key | key in Upto(shards, n) ensures key !in shards[n] {
      UptoMember(shards, n, key);
      var i :| 0 <= i < n && key in shards[i];
      assert ShardOf(key) == i;
    }
  }

  /** Writing one shard is writing the plain set. */
  lemma HomedUpdate(shards: seq<set<string>>, key: string, present: bool)
    requires Homed(shards)
    ensures var i := ShardOf(key);
            var shards' := shards[i := if present then shards[i] + {key} else shards[i] - {key}];
            && Homed(shards')
            && Upto(shards', SHARDS) == if present then Upto(shards, SHARDS) + {key} else Upto(shards, SHARDS) - {key}
  {
    var i := ShardOf(key);
    var shards' := shards[i := if present then shards[i] + {key} else shards[i] - {key}];
    forall k ensures k in Upto(shards', SHARDS) <==>
                     if present then k in Upto(shards, SHARDS) || k == key else k in Upto(shards, SHARDS) && k != key {
      HomedMember(shards, k);
      HomedMember(shards', k);
    }
  }

  class TrustPairSet {
    var shards: seq<set<string>>
    var rev: nat

    ghost predicate Valid() reads this { Homed(shards) }

    ghost function Pairs(): set<string>
      requires Valid()
      reads this
    {
      Upto(shards, SHARDS)
    }

    constructor ()
      ensures Valid() && Pairs() == {} && rev == 0
    {
      shards := seq(SHARDS, i => {});
      rev := 0;
      new;
      forall key ensures key !in Pairs() { UptoMember(shards, SHARDS, key); }
    }

    method Has(key: string) returns (found: bool)
      requires Valid()
      ensures found <==> key in Pairs()
    {
      var i := ShardIndex(key);
      HomedMember(shards, key);
      found := key in shards[i];
    }

    /** The revision moves exactly when the set does. */
    method Add(key: string)
      requires Valid()
      modifies this
      ensures Valid() && Pairs() == old(Pairs()) + {key}
      ensures rev == old(rev) + if key in old(Pairs()) then 0 else 1
    {
      var i := ShardIndex(key);
      HomedMember(shards, key);
      HomedUpdate(shards, key, true);
      if key !in shards[i] {
        shards := shards[i := shards[i] + {key}];
        rev := rev + 1;
      } else {
        assert shards[i] + {key} == shards[i];
        assert shards[i := shards[i] + {key}] == shards;
      }
    }

    method Remove(key: string) returns (found: bool)
      requires Valid()
      modifies this
      ensures Valid() && Pairs() == old(Pairs()) - {key}
      ensures found <==> key in old(Pairs())
      ensures rev == old(rev) + if found then 1 else 0
    {
      var i := ShardIndex(key);
      HomedMember(shards, key);
      HomedUpdate(shards, key, false);
      if key !in shards[i] {
        assert shards[i] - {key} == shards[i];
        assert shards[i := shards[i] - {key}] == shards;
        return false;
      }
      shards := shards[i := shards[i] - {key}];
      rev := rev + 1;
      return true;
    }

    method Count() returns (n: nat)
      requires Valid()
      ensures n == |Pairs()|
    {
      n := 0;
      var i := 0;
      while i < SHARDS
        invariant i <= SHARDS
        invariant n == |Upto(shards, i)|
      {
        HomedDisjoint(shards, i);
        n := n + |shards[i]|;
        i := i + 1;
      }
    }

    /** Every pair once, in some order. */
    method Keys() returns (out: seq<string>)
      requires Valid()
      ensures forall key :: key in out <==> key in Pairs()
      ensures |out| == |Pairs()|
    {
      out := [];
      var i := 0;
      while i < SHARDS
        invariant i <= SHARDS
        invariant forall key :: key in out <==> key in Upto(shards, i)
        invariant |out| == |Upto(shards, i)|
      {
        HomedDisjoint(shards, i);
        var rest := shards[i];
        while rest != {}
          invariant rest <= shards[i]
          invariant forall key :: key in out <==> key in Upto(shards, i) || (key in shards[i] && key !in rest)
          invariant |out| + |rest| == |Upto(shards, i)| + |shards[i]|
          decreases |rest|
        {
          var k :| k in rest;
          out := out + [k];
          rest := rest - {k};
        }
        i := i + 1;
      }
    }
  }

  // --- revision and trust over runs ---------------------------------------------------------------

  datatype Change = AddPair(a: nat, b: nat) | RemovePair(a: nat, b: nat)

  datatype Book = Book(pairs: set<string>, rev: nat)

  function Perform(s: Book, c: Change): Book {
    var key := PairKey(c.a, c.b);
    match c
    case AddPair(_, _) => if key in s.pairs then s else Book(s.pairs + {key}, s.rev + 1)
    case RemovePair(_, _) => if key in s.pairs then Book(s.pairs - {key}, s.rev + 1) else s
  }

  function PerformAll(s: Book, cs: seq<Change>): Book
    decreases |cs|
  {
    if cs == [] then s else PerformAll(Perform(s, cs[0]), cs[1..])
  }

  /** The revision never falls, and an unchanged revision means an unchanged set. */
  lemma {:induction false} SameRevisionSameSet(s: Book, cs: seq<Change>)
    ensures PerformAll(s, cs).rev >= s.rev
    ensures PerformAll(s, cs).rev == s.rev ==> PerformAll(s, cs).pairs == s.pairs
    decreases |cs|
  {
    if cs != [] { SameRevisionSameSet(Perform(s, cs[0]), cs[1..]); }
  }

  /** The last change to an unordered pair decides whether its ends trust each other. */
  function LastSays(cs: seq<Change>, a: nat, b: nat, initially: bool): bool
    decreases |cs|
  {
    if cs == [] then initially
    else
      var last := cs[|cs| - 1];
      if {last.a, last.b} == {a, b} then last.AddPair? else LastSays(cs[..|cs| - 1], a, b, initially)
  }

  lemma {:induction false} PerformAllSnoc(s: Book, cs: seq<Change>, c: Change)
    ensures PerformAll(s, cs + [c]) == Perform(PerformAll(s, cs), c)
    decreases |cs|
  {
    if cs == [] {
      assert cs + [c] == [c] && [c][1..] == [];
    } else {
      assert (cs + [c])[0] == cs[0] && (cs + [c])[1..] == cs[1..] + [c];
      PerformAllSnoc(Perform(s, cs[0]), cs[1..], c);
    }
  }

  /** The set refines a symmetric relation: after any changes, two nodes are a pair exactly
      when the last change naming the two, in either order, was an addition. */
  lemma {:induction false} TrustIsLastChange(s: Book, cs: seq<Change>, a: nat, b: nat)
    ensures PairKey(a, b) in PerformAll(s, cs).pairs <==> LastSays(cs, a, b, PairKey(a, b) in s.pairs)
    ensures PairKey(a, b) in PerformAll(s, cs).pairs <==> PairKey(b, a) in PerformAll(s, cs).pairs
    decreases |cs|
  {
    PairKeyInjective(a, b, b, a);
    if cs != [] {
      var init, last := cs[..|cs| - 1], cs[|cs| - 1];
      assert cs == init + [last];
      PerformAllSnoc(s, init, last);
      TrustIsLastChange(s, init, a, b);
      PairKeyInjective(a, b, last.a, last.b);
      assert {last.a, last.b} == {a, b} <==> (a == last.a && b == last.b) || (a == last.b && b == last.a) by {
        SameDoubleton(last.a, last.b, a, b);
      }
    }
  }

  lemma SameDoubleton(a: nat, b: nat, c: nat, d: nat)
    ensures {a, b} == {c, d} <==> (a == c && b == d) || (a == d && b == c)
  {
    if {a, b} == {c, d} {
      assert a in {c, d} && b in {c, d} && c in {a, b} && d in {a, b};
    }
  }
}
