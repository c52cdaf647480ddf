/** Map keys in ascending order: the bytes of an encoded map do not depend on the order
    in which the map was ranged over. */
module SortedKeys {
  import opened Json

  // --- the order ---------------------------------------------------------------------------------

  predicate Less(a: string, b: string) {
    b != "" && (a == "" || a[0] < b[0] || (a[0] == b[0] && Less(a[1..], b[1..])))
  }

  lemma {:induction false} LessTransitive(a: string, b: string, c: string)
    requires Less(a, b) && Less(b, c)
    ensures Less(a, c)
  {
    if a != "" && a[0] == b[0] && b[0] == c[0] { LessTransitive(a[1..], b[1..], c[1..]); }
  }

  lemma {:induction false} LessTotal(a: string, b: string)
    ensures a == b || Less(a, b) || Less(b, a)
  {
    if a != "" && b != "" && a[0] == b[0] {
      LessTotal(a[1..], b[1..]);
      if a[1..] == b[1..] { assert a == [a[0]] + a[1..] && b == [b[0]] + b[1..]; }
    }
  }

  lemma {:induction false} LessIrreflexive(a: string)
    ensures !Less(a, a)
  {
    if a != "" { LessIrreflexive(a[1..]); }
  }

  ghost predicate Ascending(ks: seq<string>) {
    forall i, j :: 0 <= i < j < |ks| ==> Less(ks[i], ks[j])
  }

  ghost predicate Lists(ks: seq<string>, keys: set<string>) {
    Ascending(ks) && forall k :: k in ks <==> k in keys
  }

  /** There is only one ascending listing of a set. */
  lemma {:induction false} OneListing(a: seq<string>, b: seq<string>, keys: set<string>)
    requires Lists(a, keys) && Lists(b, keys)
    ensures a == b
    decreases |a|
  {
    assert b != [] ==> b[0] in b;
    if a != [] {
      assert a[0] in a;
      var i :| 0 <= i < |b| && b[i] == a[0];
      assert b[0] in b;
      var j :| 0 <= j < |a| && a[j] == b[0];
      if i > 0 {
        assert Less(b[0], a[0]);
        if j > 0 { LessTransitive(a[0], b[0], a[0]); }
        LessIrreflexive(a[0]);
      }
      Rest(a, keys);
      Rest(b, keys);
      OneListing(a[1..], b[1..], keys - {a[0]});
      assert a == [a[0]] + a[1..] && b == [b[0]] + b[1..];
    }
  }

  lemma Rest(ks: seq<string>, keys: set<string>)
    requires Lists(ks, keys) && ks != []
    ensures Lists(ks[1..], keys - {ks[0]})
  {
    forall k ensures k in ks[1..] <==> k in keys - {ks[0]} {
      if k in ks[1..] {
        var i :| 0 <= i < |ks[1..]| && ks[1..][i] == k;
        assert Less(ks[0], ks[i + 1]);
        LessIrreflexive(k);
      }
      if k in keys - {ks[0]} {
        var i :| 0 <= i < |ks| && ks[i] == k;
        assert ks[1..][i - 1] == k;
      }
    }
  }

  lemma Inserted(ks: seq<string>, i: nat, k: string, keys: set<string>)
    requires Lists(ks, keys) && i <= |ks| && k !in keys
    requires forall j :: 0 <= j < i ==> Less(ks[j], k)
    requires forall j :: i <= j < |ks| ==> Less(k, ks[j])
    ensures Lists(ks[..i] + [k] + ks[i..], keys + {k})
  {
    var r := ks[..i] + [k] + ks[i..];
    forall x ensures x in r <==> x in keys + {k} {
      assert x in r <==> x in ks[..i] || x == k || x in ks[i..];
      assert ks == ks[..i] + ks[i..];
    }
  }

  /** Collects the keys in whatever order the range yields them and sorts them. */
  method SortKeys(keys: set<string>) returns (ks: seq<string>)
    ensures Lists(ks, keys)
  {
    ks := [];
    var rest := keys;
    while rest != {}
      invariant rest <= keys && Lists(ks, keys - rest)
      decreases |rest|
    {
      var k :| k in rest;
      ks := Insert(ks, k, keys - rest);
      assert keys - rest + {k} == keys - (rest - {k});
      rest := rest - {k};
    }
    assert keys - rest == keys;
  }

  method Insert(ks: seq<string>, k: string, ghost keys: set<string>) returns (r: seq<string>)
    requires Lists(ks, keys) && k !in keys
    ensures Lists(r, keys + {k})
  {
    var i := 0;
    while i < |ks| && Less(ks[i], k)
      invariant i <= |ks| && forall j :: 0 <= j < i ==> Less(ks[j], k)
    {
      i := i + 1;
    }
    Above(ks, i, k, keys);
    Inserted(ks, i, k, keys);
    r := ks[..i] + [k] + ks[i..];
  }

  lemma Above(ks: seq<string>, i: nat, k: string, keys: set<string>)
    requires Lists(ks, keys) && i <= |ks| && k !in keys && (i < |ks| ==> !Less(ks[i], k))
    ensures forall j :: i <= j < |ks| ==> Less(k, ks[j])
  {
    forall j | i <= j < |ks| ensures Less(k, ks[j]) {
      assert ks[i] in ks;
      LessTotal(k, ks[i]);
      if j > i { LessTransitive(k, ks[i], ks[j]); }
    }
  }

  // --- objects from maps ----------------------------------------------------------------------------

  function Pairs(ks: seq<string>, m: map<string, Json>): (r: seq<(string, Json)>)
    requires forall k :: k in ks ==> k in m
    ensures |r| == |ks| && forall i :: 0 <= i < |ks| ==> r[i] == (ks[i], m[ks[i]])
  {
    seq(|ks|, i requires 0 <= i < |ks| => (ks[i], m[ks[i]]))
  }

  ghost function Slot(ks: seq<string>, k: string): (i: nat)
    ensures i <= |ks| && (forall j :: 0 <= j < i ==> Less(ks[j], k)) && (i < |ks| ==> !Less(ks[i], k))
  {
    if ks == [] || !Less(ks[0], k) then 0
    else
      var i := Slot(ks[1..], k);
      assert forall j :: 0 < j < i + 1 ==> ks[j] == ks[1..][j - 1];
      i + 1
  }

  lemma {:induction false} SomeListing(keys: set<string>)
    ensures exists ks :: Lists(ks, keys)
  {
    if keys == {} {
      assert Lists([], keys);
    } else {
      var k :| k in keys;
      SomeListing(keys - {k});
      var ks :| Lists(ks, keys - {k});
      var i := Slot(ks, k);
      Above(ks, i, k, keys - {k});
      Inserted(ks, i, k, keys - {k});
      assert keys - {k} + {k} == keys;
    }
  }

  /** The object a map is encoded as. */
  ghost function ObjOf(m: map<string, Json>): Json {
    SomeListing(m.Keys);
    var ks :| Lists(ks, m.Keys);
    Obj(Pairs(ks, m))
  }

  lemma ObjOfListing(m: map<string, Json>, ks: seq<string>)
    requires Lists(ks, m.Keys)
    ensures ObjOf(m) == Obj(Pairs(ks, m))
  {
    SomeListing(m.Keys);
    var other :| Lists(other, m.Keys) && ObjOf(m) == Obj(Pairs(other, m));
    OneListing(ks, other, m.Keys);
  }

  /** What decoding an object into a map gives; a later member of a name wins. */
  function MapOf(ms: seq<(string, Json)>): map<string, Json> {
    if ms == [] then map[] else MapOf(ms[..|ms| - 1])[ms[|ms| - 1].0 := ms[|ms| - 1].1]
  }

  lemma {:induction false} MapOfPairs(ks: seq<string>, m: map<string, Json>)
    requires forall k :: k in ks ==> k in m
    ensures MapOf(Pairs(ks, m)) == map k | k in ks :: m[k]
  {
    if ks != [] {
      var n := |ks| - 1;
      assert ks == ks[..n] + [ks[n]];
      MapOfPairs(ks[..n], m);
      assert Pairs(ks, m)[..n] == Pairs(ks[..n], m);
    }
  }

  /** Decoding the object a map is encoded as gives the map. */
  lemma MapOfObjOf(m: map<string, Json>)
    ensures ObjOf(m).Obj? && MapOf(ObjOf(m).members) == m
  {
    SomeListing(m.Keys);
    var ks :| Lists(ks, m.Keys);
    ObjOfListing(m, ks);
    MapOfPairs(ks, m);
  }
}
