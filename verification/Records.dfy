/** Struct fields as JSON members: the names and rules of their tags, what the standard
    encoder makes of them, and how a decoder fills them back by name. */
module Records {
  import opened Options
  import opened Json

  /** When a field is left out: never, when its value is empty, or when it is nil
      (references and pre-encoded messages). */
  datatype Rule = Never | WhenEmpty | WhenNil

  datatype Field = Field(name: string, rule: Rule)

  function Fields(names: seq<string>, rules: seq<Rule>): (fs: seq<Field>)
    requires |names| == |rules|
    ensures |fs| == |names| && forall i :: 0 <= i < |names| ==> fs[i] == Field(names[i], rules[i])
  {
    seq(|names|, i requires 0 <= i < |names| => Field(names[i], rules[i]))
  }

  predicate Empty(j: Json) {
    match j
    case Null => true
    case False => true
    case True => false
    case Num(n) => n == 0
    case Str(t) => |t| == 0
    case Arr(items) => |items| == 0
    case Obj(ms) => |ms| == 0
  }

  predicate Omitted(rule: Rule, j: Json) {
    match rule
    case Never => false
    case WhenEmpty => Empty(j)
    case WhenNil => j == Null
  }

  ghost predicate Distinct(fs: seq<Field>) {
    forall i, j :: 0 <= i < j < |fs| ==> fs[i].name != fs[j].name
  }

  /** The members a struct is encoded as. */
  function Kept(fs: seq<Field>, vs: seq<Json>): seq<(string, Json)>
    requires |fs| == |vs|
  {
    if fs == [] then []
    else
      var n := |fs| - 1;
      Kept(fs[..n], vs[..n]) + if Omitted(fs[n].rule, vs[n]) then [] else [(fs[n].name, vs[n])]
  }

  /** The last member of that name, which is the one the decoder keeps. */
  function Get(ms: seq<(string, Json)>, name: string): Option<Json> {
    if ms == [] then None
    else
      var n := |ms| - 1;
      if ms[n].0 == name then Some(ms[n].1) else Get(ms[..n], name)
  }

  /** The decoded fields; one that is absent reads as null, which leaves the zero value. */
  function Fill(fs: seq<Field>, ms: seq<(string, Json)>): (r: seq<Json>)
    ensures |r| == |fs|
    ensures forall i :: 0 <= i < |fs| ==> r[i] == match Get(ms, fs[i].name) case None => Null case Some(j) => j
  {
    seq(|fs|, i requires 0 <= i < |fs| => match Get(ms, fs[i].name) case None => Null case Some(j) => j)
  }

  /** The value with the dropped fields absent. */
  function Canon(fs: seq<Field>, vs: seq<Json>): (r: seq<Json>)
    requires |fs| == |vs|
    ensures |r| == |fs|
    ensures forall i :: 0 <= i < |fs| ==> r[i] == if Omitted(fs[i].rule, vs[i]) then Null else vs[i]
  {
    seq(|fs|, i requires 0 <= i < |fs| => if Omitted(fs[i].rule, vs[i]) then Null else vs[i])
  }

  // --- decoding what was encoded -------------------------------------------------------------

  lemma KeptLast(fs: seq<Field>, vs: seq<Json>)
    requires |fs| == |vs| && fs != []
    ensures var n := |fs| - 1;
            var front := Kept(fs[..n], vs[..n]);
            if Omitted(fs[n].rule, vs[n]) then Kept(fs, vs) == front
            else Kept(fs, vs) == front + [(fs[n].name, vs[n])] && Kept(fs, vs)[..|front|] == front
  {
    var front := Kept(fs[..|fs| - 1], vs[..|fs| - 1]);
    assert front + [] == front;
  }

  lemma {:induction false} GetAbsent(fs: seq<Field>, vs: seq<Json>, name: string)
    requires |fs| == |vs| && forall i :: 0 <= i < |fs| ==> fs[i].name != name
    ensures Get(Kept(fs, vs), name) == None
  {
    if fs != [] {
      var n := |fs| - 1;
      GetAbsent(fs[..n], vs[..n], name);
      KeptLast(fs, vs);
    }
  }

  lemma {:induction false} GetKept(fs: seq<Field>, vs: seq<Json>, i: nat)
    requires |fs| == |vs| && Distinct(fs) && i < |fs|
    ensures Get(Kept(fs, vs), fs[i].name) == if Omitted(fs[i].rule, vs[i]) then None else Some(vs[i])
    decreases |fs|
  {
    var n := |fs| - 1;
    KeptLast(fs, vs);
    if i == n {
      GetAbsent(fs[..n], vs[..n], fs[n].name);
    } else {
      GetKept(fs[..n], vs[..n], i);
    }
  }

  /** Decoding the encoded members gives the value back, without the dropped fields. */
  lemma FillKept(fs: seq<Field>, vs: seq<Json>)
    requires |fs| == |vs| && Distinct(fs)
    ensures Fill(fs, Kept(fs, vs)) == Canon(fs, vs)
  {
    forall i | 0 <= i < |fs| ensures Fill(fs, Kept(fs, vs))[i] == Canon(fs, vs)[i] {
      GetKept(fs, vs, i);
    }
  }

  /** And encoding that again gives the same members. */
  lemma {:induction false} KeptCanon(fs: seq<Field>, vs: seq<Json>)
    requires |fs| == |vs|
    ensures Kept(fs, Canon(fs, vs)) == Kept(fs, vs)
  {
    if fs != [] {
      var n := |fs| - 1;
      KeptCanon(fs[..n], vs[..n]);
      assert Canon(fs, vs)[..n] == Canon(fs[..n], vs[..n]);
    }
  }

  /** Any two values that are left out are interchangeable. */
  lemma KeptSwap(fs: seq<Field>, vs: seq<Json>, i: nat, j: Json)
    requires |fs| == |vs| && i < |fs|
    requires j == vs[i] || (Omitted(fs[i].rule, j) && Omitted(fs[i].rule, vs[i]))
    ensures Kept(fs, vs[i := j]) == Kept(fs, vs)
  {
    assert Canon(fs, vs[i := j]) == Canon(fs, vs);
    KeptCanon(fs, vs);
    KeptCanon(fs, vs[i := j]);
  }

  /** What one field adds. */
  function One(f: Field, v: Json): seq<(string, Json)> {
    if Omitted(f.rule, v) then [] else [(f.name, v)]
  }

  /** The members of the first `k` fields. */
  function First(fs: seq<Field>, vs: seq<Json>, k: nat): seq<(string, Json)>
    requires k <= |fs| == |vs|
  {
    Kept(fs[..k], vs[..k])
  }

  lemma FirstNext(fs: seq<Field>, vs: seq<Json>, k: nat)
    requires k < |fs| == |vs|
    ensures First(fs, vs, k + 1) == First(fs, vs, k) + One(fs[k], vs[k])
  {
    assert fs[..k + 1][..k] == fs[..k] && vs[..k + 1][..k] == vs[..k];
  }

  lemma FirstAll(fs: seq<Field>, vs: seq<Json>)
    requires |fs| == |vs|
    ensures First(fs, vs, 0) == [] && First(fs, vs, |fs|) == Kept(fs, vs)
  {
    assert fs[..|fs|] == fs && vs[..|fs|] == vs;
  }

  type Members = seq<(string, Json)>

  /** The members before and after one field, whose name needs no escapes. */
  ghost predicate Adds(before: Members, after: Members, omitted: bool, name: string, v: Json) {
    Plain(name) && after == if omitted then before else before + [(name, v)]
  }

  /** The members before each field and after the last. */
  ghost predicate Ladder(f: seq<Members>, names: seq<string>, rules: seq<Rule>, vs: seq<Json>) {
    && |f| == |names| + 1 && |rules| == |vs| == |names|
    && forall k :: 0 <= k < |names| ==> Adds(f[k], f[k + 1], Omitted(rules[k], vs[k]), names[k], vs[k])
  }

  /** A ladder climbs from `start` by the members the struct is encoded as. */
  lemma Climb(start: Members, names: seq<string>, rules: seq<Rule>, vs: seq<Json>) returns (f: seq<Members>)
    requires |names| == |rules| == |vs| && forall k :: 0 <= k < |names| ==> Plain(names[k])
    ensures Ladder(f, names, rules, vs) && f[0] == start && f[|names|] == start + Kept(Fields(names, rules), vs)
  {
    var fs := Fields(names, rules);
    f := seq(|names| + 1, k requires 0 <= k <= |names| => start + First(fs, vs, k));
    FirstAll(fs, vs);
    assert start + [] == start;
    forall k | 0 <= k < |names| ensures Adds(f[k], f[k + 1], Omitted(rules[k], vs[k]), names[k], vs[k]) {
      FirstNext(fs, vs, k);
      assert f[k] + [] == f[k];
      assert start + (First(fs, vs, k) + One(fs[k], vs[k])) == f[k] + One(fs[k], vs[k]);
    }
  }

  lemma {:induction false} KeptConcat(fs: seq<Field>, vs: seq<Json>, gs: seq<Field>, ws: seq<Json>)
    requires |fs| == |vs| && |gs| == |ws|
    ensures Kept(fs + gs, vs + ws) == Kept(fs, vs) + Kept(gs, ws)
    decreases |gs|
  {
    if gs == [] {
      assert fs + gs == fs && vs + ws == vs && Kept(fs, vs) + [] == Kept(fs, vs);
    } else {
      var n, m := |gs| - 1, |fs + gs| - 1;
      KeptConcat(fs, vs, gs[..n], ws[..n]);
      assert (fs + gs)[..m] == fs + gs[..n] && (vs + ws)[..m] == vs + ws[..n];
      assert (fs + gs)[m] == gs[n] && (vs + ws)[m] == ws[n];
    }
  }

  /** The standard encoder on a struct: it walks the tag table and prints the fields kept. */
  method EncodeStruct(fs: seq<Field>, texts: seq<string>, empty: seq<bool>, ghost vs: seq<Json>) returns (r: string)
    requires |fs| == |texts| == |empty| == |vs|
    requires forall i :: 0 <= i < |fs| ==> texts[i] == Print(vs[i])
    requires forall i :: 0 <= i < |fs| ==> (empty[i] <==> Omitted(fs[i].rule, vs[i]))
    ensures r == Print(Obj(Kept(fs, vs)))
  {
    r := "{";
    var comma := "";
    var i := 0;
    FirstAll(fs, vs);
    while i < |fs|
      invariant i <= |fs| && Written(fs, vs, i, r, comma)
    {
      WrittenNext(fs, vs, i, r, comma);
      if !empty[i] {
        r := r + comma + (Quote(fs[i].name) + ":" + texts[i]);
        comma := ",";
      }
      i := i + 1;
    }
    OpenIsText(Kept(fs, vs));
    r := r + "}";
  }

  /** The text and the separator before field `i`. */
  ghost predicate Written(fs: seq<Field>, vs: seq<Json>, i: nat, text: string, comma: string)
    requires i <= |fs| == |vs|
  {
    text == "{" + Open(First(fs, vs, i)) && comma == if First(fs, vs, i) == [] then "" else ","
  }

  lemma WrittenNext(fs: seq<Field>, vs: seq<Json>, i: nat, text: string, comma: string)
    requires i < |fs| == |vs| && Written(fs, vs, i, text, comma)
    ensures Omitted(fs[i].rule, vs[i]) ==> Written(fs, vs, i + 1, text, comma)
    ensures !Omitted(fs[i].rule, vs[i]) ==>
              Written(fs, vs, i + 1, text + comma + (Quote(fs[i].name) + ":" + Print(vs[i])), ",")
  {
    FirstNext(fs, vs, i);
    if Omitted(fs[i].rule, vs[i]) {
      assert First(fs, vs, i) + [] == First(fs, vs, i);
    } else {
      Grow("{", First(fs, vs, i), (fs[i].name, vs[i]));
    }
  }

  // --- texts under construction -----------------------------------------------------------------

  /** The members without the closing brace. */
  function Open(ms: seq<(string, Json)>): string {
    if ms == [] then ""
    else if |ms| == 1 then PrintMember(ms[0])
    else Open(ms[..|ms| - 1]) + "," + PrintMember(ms[|ms| - 1])
  }

  lemma {:induction false} MoreMembersSnoc(ms: seq<(string, Json)>, m: (string, Json))
    ensures MoreMembers(ms + [m]) == MoreMembers(ms) + "," + PrintMember(m)
  {
    if ms == [] {
      assert ms + [m] == [m] && [m][1..] == [];
    } else {
      assert (ms + [m])[0] == ms[0] && (ms + [m])[1..] == ms[1..] + [m];
      MoreMembersSnoc(ms[1..], m);
    }
  }

  lemma {:induction false} OpenFront(ms: seq<(string, Json)>)
    requires ms != []
    ensures Open(ms) == PrintMember(ms[0]) + MoreMembers(ms[1..])
  {
    var n := |ms| - 1;
    if n > 0 {
      OpenFront(ms[..n]);
      MoreMembersSnoc(ms[1..n], ms[n]);
      assert ms[..n][1..] == ms[1..n] && ms[1..n] + [ms[n]] == ms[1..];
      Assoc(PrintMember(ms[0]), MoreMembers(ms[1..n]), ",", PrintMember(ms[n]));
    }
  }

  lemma OpenIsText(ms: seq<(string, Json)>)
    ensures Print(Obj(ms)) == "{" + Open(ms) + "}"
  {
    if ms != [] { OpenFront(ms); }
  }

  lemma OpenSnoc(ms: seq<(string, Json)>, m: (string, Json))
    ensures Open(ms + [m]) == Open(ms) + (if ms == [] then "" else ",") + PrintMember(m)
  {
    assert (ms + [m])[..|ms|] == ms;
  }

  lemma Grow(a: string, ms: seq<(string, Json)>, m: (string, Json))
    ensures a + Open(ms + [m]) == a + Open(ms) + (if ms == [] then "" else ",") + PrintMember(m)
  {
    OpenSnoc(ms, m);
    Assoc(a, Open(ms), if ms == [] then "" else ",", PrintMember(m));
  }

  lemma Assoc(a: string, b: string, c: string, d: string)
    ensures a + (b + c + d) == a + b + c + d
  {
  }

  /** The elements without the closing bracket. */
  function OpenItems(items: seq<Json>): string {
    if items == [] then ""
    else if |items| == 1 then Print(items[0])
    else OpenItems(items[..|items| - 1]) + "," + Print(items[|items| - 1])
  }

  lemma {:induction false} MoreItemsSnoc(items: seq<Json>, j: Json)
    ensures MoreItems(items + [j]) == MoreItems(items) + "," + Print(j)
  {
    if items == [] {
      assert items + [j] == [j] && [j][1..] == [];
    } else {
      assert (items + [j])[0] == items[0] && (items + [j])[1..] == items[1..] + [j];
      MoreItemsSnoc(items[1..], j);
    }
  }

  lemma {:induction false} OpenItemsFront(items: seq<Json>)
    requires items != []
    ensures OpenItems(items) == Print(items[0]) + MoreItems(items[1..])
  {
    var n := |items| - 1;
    if n > 0 {
      OpenItemsFront(items[..n]);
      MoreItemsSnoc(items[1..n], items[n]);
      assert items[..n][1..] == items[1..n] && items[1..n] + [items[n]] == items[1..];
      Assoc(Print(items[0]), MoreItems(items[1..n]), ",", Print(items[n]));
    }
  }

  lemma OpenItemsIsText(items: seq<Json>)
    ensures Print(Arr(items)) == "[" + OpenItems(items) + "]"
  {
    if items != [] { OpenItemsFront(items); }
  }

  lemma OpenItemsSnoc(items: seq<Json>, j: Json)
    ensures OpenItems(items + [j]) == OpenItems(items) + (if items == [] then "" else ",") + Print(j)
  {
    assert (items + [j])[..|items|] == items;
  }

  lemma GrowItems(a: string, items: seq<Json>, i: nat)
    requires i < |items|
    ensures a + OpenItems(items[..i + 1]) == a + OpenItems(items[..i]) + (if i == 0 then "" else ",") + Print(items[i])
  {
    assert items[..i + 1] == items[..i] + [items[i]];
    OpenItemsSnoc(items[..i], items[i]);
    Assoc(a, OpenItems(items[..i]), if i == 0 then "" else ",", Print(items[i]));
  }
}
