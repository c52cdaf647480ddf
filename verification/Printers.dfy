/** The hand-written printers: strings with their fast path, slices, and the buffer whose
    separator flag the field blocks share. Each prints what the standard encoder prints. */
module Printers {
  import opened Options
  import opened Json
  import opened Records

  /** Slices that may be nil. */
  datatype Slice<+T> = Nil | Of(items: seq<T>)

  function NatsJson(s: Slice<nat>): Json {
    if s.Nil? then Null else Arr(seq(|s.items|, i requires 0 <= i < |s.items| => Num(s.items[i])))
  }

  function TextsJson(s: Slice<string>): Json {
    if s.Nil? then Null else Arr(seq(|s.items|, i requires 0 <= i < |s.items| => Str(s.items[i])))
  }

  /** The decimal digits of a number, appended. */
  function AppendInt(dst: string, n: int): string { dst + PrintInt(n) }

  /** A string is copied when every character is plain and left to the standard encoder otherwise. */
  method AppendJSONString(dst: string, s: string) returns (r: string)
    ensures r == dst + Print(Str(s))
  {
    var safe := true;
    var i := 0;
    while i < |s|
      invariant i <= |s| && safe && forall j :: 0 <= j < i ==> PlainChar(s[j])
    {
      var c := s[i];
      if c < ' ' || c == '"' || c == '\\' || c >= 128 as char {
        safe := false;
        break;
      }
      i := i + 1;
    }
    if safe {
      PlainQuote(s);
      Assoc(dst, "\"", s, "\"");
      r := dst + "\"";
      r := r + s;
      return r + "\"";
    }
    r := dst + Quote(s);
  }

  lemma Enclose(dst: string, js: seq<Json>)
    ensures dst + "[" + OpenItems(js) + "]" == dst + Print(Arr(js))
  {
    OpenItemsIsText(js);
    Assoc(dst, "[", OpenItems(js), "]");
  }

  method AppendU16Slice(dst: string, s: Slice<nat>) returns (r: string)
    ensures r == dst + Print(NatsJson(s))
  {
    if s.Nil? { return dst + "null"; }
    ghost var js := NatsJson(s).items;
    r := dst + "[";
    var i := 0;
    while i < |s.items|
      invariant i <= |s.items| && r == dst + "[" + OpenItems(js[..i])
    {
      GrowItems(dst + "[", js, i);
      if i > 0 { r := r + ","; }
      r := AppendInt(r, s.items[i]);
      i := i + 1;
    }
    assert js[..i] == js;
    Enclose(dst, js);
    r := r + "]";
  }

  method AppendStringSlice(dst: string, s: Slice<string>) returns (r: string)
    ensures r == dst + Print(TextsJson(s))
  {
    if s.Nil? { return dst + "null"; }
    ghost var js := TextsJson(s).items;
    r := dst + "[";
    var i := 0;
    while i < |s.items|
      invariant i <= |s.items| && r == dst + "[" + OpenItems(js[..i])
    {
      GrowItems(dst + "[", js, i);
      if i > 0 { r := r + ","; }
      r := AppendJSONString(r, s.items[i]);
      i := i + 1;
    }
    assert js[..i] == js;
    Enclose(dst, js);
    r := r + "]";
  }

  /** An object under construction: its members so far, and possibly one more key. */
  function Partial(base: string, ms: seq<(string, Json)>, key: Option<string>): string {
    base + "{" + Open(ms) + if key.None? then "" else (if ms == [] then "" else ",") + (Quote(key.value) + ":")
  }

  lemma KeyText(base: string, ms: seq<(string, Json)>, name: string)
    requires Plain(name)
    ensures Partial(base, ms, None) + (if ms == [] then "" else ",") + "\"" + name + "\":"
            == Partial(base, ms, Some(name))
  {
    PlainQuote(name);
    var a, sep := base + "{" + Open(ms), if ms == [] then "" else ",";
    assert Partial(base, ms, None) == a;
    assert Quote(name) + ":" == "\"" + name + "\":";
    assert a + sep + "\"" + name + "\":" == a + (sep + ("\"" + name + "\":"));
  }

  lemma PutText(base: string, ms: seq<(string, Json)>, name: string, v: Json)
    ensures Partial(base, ms, Some(name)) + Print(v) == Partial(base, ms + [(name, v)], None)
  {
    var a, sep := base + "{", if ms == [] then "" else ",";
    Grow(a, ms, (name, v));
    KeyThenValue(a + Open(ms), sep, Quote(name) + ":", Print(v));
  }

  lemma KeyThenValue(a: string, sep: string, k: string, v: string)
    ensures a + (sep + k) + v == a + sep + (k + v)
  {
  }

  lemma CloseText(base: string, ms: seq<(string, Json)>)
    ensures Partial(base, ms, None) + "}" == base + Print(Obj(ms))
  {
    OpenIsText(ms);
    Assoc(base, "{", Open(ms), "}");
  }

  /** The bytes of one object under construction, with the flag the key blocks share. */
  class Buffer {
    var dst: string
    var first: bool
    ghost const base: string
    ghost var members: seq<(string, Json)>
    ghost var key: Option<string>

    /** `members` have been appended to `base`, and possibly one more key. */
    ghost predicate Valid()
      reads this
    {
      && (first <==> members == [] && key.None?)
      && dst == Partial(base, members, key)
    }

    ghost predicate Ready() reads this { Valid() && key.None? }

    constructor (initial: string)
      ensures Ready() && base == initial && members == []
    {
      dst, first := initial + "{", true;
      base, members, key := initial, [], None;
    }

    /** A comma before every key but the first; names are copied. */
    method Key(name: string)
      requires Ready() && Plain(name)
      modifies this
      ensures Valid() && key == Some(name) && members == old(members)
    {
      KeyText(base, members, name);
      dst := dst + if first then "" else ",";
      first := false;
      dst := dst + "\"";
      dst := dst + name;
      dst := dst + "\":";
      key := Some(name);
    }

    /** The buffer after a printer appended the value. */
    method Put(appended: string, ghost v: Json)
      requires Valid() && key.Some? && appended == dst + Print(v)
      modifies this
      ensures Ready() && members == old(members) + [(old(key.value), v)]
    {
      PutText(base, members, key.value, v);
      dst := appended;
      members := members + [(key.value, v)];
      key := None;
    }

    method Int(n: int)
      requires Valid() && key.Some?
      modifies this
      ensures Ready() && members == old(members) + [(old(key.value), Num(n))]
    {
      Put(AppendInt(dst, n), Num(n));
    }

    method Text(s: string)
      requires Valid() && key.Some?
      modifies this
      ensures Ready() && members == old(members) + [(old(key.value), Str(s))]
    {
      var appended := AppendJSONString(dst, s);
      Put(appended, Str(s));
    }

    method Yes()
      requires Valid() && key.Some?
      modifies this
      ensures Ready() && members == old(members) + [(old(key.value), True)]
    {
      Put(dst + "true", True);
    }

    method Nats(s: Slice<nat>)
      requires Valid() && key.Some?
      modifies this
      ensures Ready() && members == old(members) + [(old(key.value), NatsJson(s))]
    {
      var appended := AppendU16Slice(dst, s);
      Put(appended, NatsJson(s));
    }

    method Texts(s: Slice<string>)
      requires Valid() && key.Some?
      modifies this
      ensures Ready() && members == old(members) + [(old(key.value), TextsJson(s))]
    {
      var appended := AppendStringSlice(dst, s);
      Put(appended, TextsJson(s));
    }

    /** A value left to the standard encoder. */
    method Std(v: Json)
      requires Valid() && key.Some?
      modifies this
      ensures Ready() && members == old(members) + [(old(key.value), v)]
    {
      Put(dst + Print(v), v);
    }

    method Close() returns (r: string)
      requires Ready()
      ensures r == base + Print(Obj(members))
    {
      CloseText(base, members);
      r := dst + "}";
    }
  }
}
