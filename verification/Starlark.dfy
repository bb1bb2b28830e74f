/** The conversion of event data to Starlark values and back (plugins/common/starlark/bindings.go). */
module Starlark {

  import opened Options
  import opened Powers

  /** Go's integer types; `int` and `uint` have 64 bits. */
  datatype Kind = Int | Int8 | Int16 | Int32 | Int64 | Uint | Uint8 | Uint16 | Uint32 | Uint64

  /** A value of event data, with its dynamic type. `Opaque` stands for every type the conversion does not know,
      such as a slice or a map of anything but `any`. */
  datatype Go =
    | Nil
    | GoString(s: string)
    | GoBool(b: bool)
    | GoInt(kind: Kind, n: int)
    | GoFloat(single: bool, r: real)
    | GoDuration(d: int)
    | GoTime(t: int)
    | Slice(elems: seq<Go>)
    | Map(entries: map<string, Go>)
    | Opaque

  /** A Starlark value. A dictionary's entries with string keys, and the number of those with any other key. */
  datatype Star =
    | NoneType
    | String(s: string)
    | Bool(b: bool)
    | BigInt(n: int)
    | Float(r: real)
    | Duration(d: int)
    | Time(t: int)
    | Month(name: string)
    | Weekday(name: string)
    | List(elems: seq<Star>)
    | Dict(entries: map<string, Star>, oddKeys: nat)
    | Callable

  function Bits(kind: Kind): nat {
    match kind
    case Int8 => 8 case Uint8 => 8
    case Int16 => 16 case Uint16 => 16
    case Int32 => 32 case Uint32 => 32
    case _ => 64
  }

  const TWO_63: int := 0x8000_0000_0000_0000
  const TWO_64: int := 0x1_0000_0000_0000_0000

  predicate Signed(kind: Kind) {
    kind.Int? || kind.Int8? || kind.Int16? || kind.Int32? || kind.Int64?
  }

  /** The values of an integer type. */
  predicate InRange(kind: Kind, n: int) {
    if Signed(kind) then -Pow2(Bits(kind) - 1) <= n < Pow2(Bits(kind) - 1) else 0 <= n < Pow2(Bits(kind))
  }

  /** A value that Go can hold. */
  ghost predicate Typed(g: Go) {
    match g
    case GoInt(kind, n) => InRange(kind, n)
    case Slice(elems) => forall i :: 0 <= i < |elems| ==> Typed(elems[i])
    case Map(entries) => forall k <- entries :: Typed(entries[k])
    case _ => true
  }

  // ---- The conversions ----

  function StarOf(g: Go): (r: Option<Star>) {
    match g
    case Nil => Some(NoneType)
    case GoString(s) => Some(String(s))
    case GoBool(b) => Some(Bool(b))
    case GoInt(_, n) => Some(BigInt(n))
    case GoFloat(_, r) => Some(Float(r))
    case GoDuration(d) => Some(Duration(d))
    case GoTime(t) => Some(Time(t))
    case Slice(elems) =>
      if forall i :: 0 <= i < |elems| ==> StarOf(elems[i]).Some?
      then Some(List(seq(|elems|, i requires 0 <= i < |elems| && StarOf(elems[i]).Some? => StarOf(elems[i]).value)))
      else None
    case Map(entries) =>
      if forall k <- entries :: StarOf(entries[k]).Some?
      then Some(Dict(map k | k in entries :: StarOf(entries[k]).value, 0))
      else None
    case Opaque => None
  }

  function GoOf(v: Star): (r: Option<Go>) {
    match v
    case NoneType => Some(Nil)
    case String(s) => Some(GoString(s))
    case Bool(b) => Some(GoBool(b))
    case BigInt(n) =>
      if -TWO_63 <= n < TWO_63 then Some(GoInt(Int64, n))
      else if 0 <= n < TWO_64 then Some(GoInt(Uint64, n))
      else None
    case Float(r) => Some(GoFloat(false, r))
    case Duration(d) => Some(GoDuration(d))
    case Time(t) => Some(GoTime(t))
    case Month(name) => Some(GoString(name))
    case Weekday(name) => Some(GoString(name))
    case List(elems) =>
      if forall i :: 0 <= i < |elems| ==> GoOf(elems[i]).Some?
      then Some(Slice(seq(|elems|, i requires 0 <= i < |elems| && GoOf(elems[i]).Some? => GoOf(elems[i]).value)))
      else None
    case Dict(entries, oddKeys) =>
      if oddKeys == 0 && forall k <- entries :: GoOf(entries[k]).Some?
      then Some(Map(map k | k in entries :: GoOf(entries[k]).value))
      else None
    case Callable => None
  }

  lemma ListOf(elems: seq<Go>, list: seq<Star>)
    requires |list| == |elems| && forall i :: 0 <= i < |elems| ==> StarOf(elems[i]) == Some(list[i])
    ensures StarOf(Slice(elems)) == Some(List(list))
  {
    assert list == StarOf(Slice(elems)).value.elems;
  }

  lemma DictOf(entries: map<string, Go>, dict: map<string, Star>)
    requires dict.Keys == entries.Keys && forall k <- entries :: StarOf(entries[k]) == Some(dict[k])
    ensures StarOf(Map(entries)) == Some(Dict(dict, 0))
  {
    assert dict == StarOf(Map(entries)).value.entries;
  }

  lemma SliceOf(elems: seq<Star>, slice: seq<Go>)
    requires |slice| == |elems| && forall i :: 0 <= i < |elems| ==> GoOf(elems[i]) == Some(slice[i])
    ensures GoOf(List(elems)) == Some(Slice(slice))
  {
    assert slice == GoOf(List(elems)).value.elems;
  }

  lemma MapOf(entries: map<string, Star>, datamap: map<string, Go>)
    requires datamap.Keys == entries.Keys && forall k <- entries :: GoOf(entries[k]) == Some(datamap[k])
    ensures GoOf(Dict(entries, 0)) == Some(Map(datamap))
  {
    assert datamap == GoOf(Dict(entries, 0)).value.entries;
  }

  method ToStarlarkValue(g: Go) returns (r: Option<Star>)
    ensures r == StarOf(g)
  {
    match g
    case Nil => r := Some(NoneType);
    case GoString(s) => r := Some(String(s));
    case GoBool(b) => r := Some(Bool(b));
    case GoInt(_, n) => r := Some(BigInt(n));
    case GoFloat(_, x) => r := Some(Float(x));
    case GoDuration(d) => r := Some(Duration(d));
    case GoTime(t) => r := Some(Time(t));
    case Slice(elems) =>
      var list: seq<Star> := [];
      for i := 0 to |elems|
        invariant |list| == i
        invariant forall j :: 0 <= j < i ==> StarOf(elems[j]) == Some(list[j])
      {
        var v := ToStarlarkValue(elems[i]);
        if v.None? {
          return None;
        }
        list := list + [v.value];
      }
      ListOf(elems, list);
      r := Some(List(list));
    case Map(entries) =>
      var dict: map<string, Star> := map[];
      var todo := entries.Keys;
      while todo != {}
        invariant todo <= entries.Keys && dict.Keys == entries.Keys - todo
        invariant forall k <- dict :: StarOf(entries[k]) == Some(dict[k])
        decreases todo
      {
        var k :| k in todo;
        var v := ToStarlarkValue(entries[k]);
        if v.None? {
          return None;
        }
        dict := dict[k := v.value];
        todo := todo - {k};
      }
      DictOf(entries, dict);
      r := Some(Dict(dict, 0));
    case Opaque => r := None;
  }

  method ToGoValue(v: Star) returns (r: Option<Go>)
    ensures r == GoOf(v)
  {
    match v
    case NoneType => r := Some(Nil);
    case String(s) => r := Some(GoString(s));
    case Bool(b) => r := Some(GoBool(b));
    case BigInt(n) =>
      if -TWO_63 <= n < TWO_63 {
        return Some(GoInt(Int64, n));
      }
      if 0 <= n < TWO_64 {
        return Some(GoInt(Uint64, n));
      }
      r := None;
    case Float(x) => r := Some(GoFloat(false, x));
    case Duration(d) => r := Some(GoDuration(d));
    case Time(t) => r := Some(GoTime(t));
    case Month(name) => r := Some(GoString(name));
    case Weekday(name) => r := Some(GoString(name));
    case List(elems) =>
      var slice: seq<Go> := [];
      for i := 0 to |elems|
        invariant |slice| == i
        invariant forall j :: 0 <= j < i ==> GoOf(elems[j]) == Some(slice[j])
      {
        var g := ToGoValue(elems[i]);
        if g.None? {
          return None;
        }
        slice := slice + [g.value];
      }
      SliceOf(elems, slice);
      r := Some(Slice(slice));
    case Dict(entries, oddKeys) =>
      if oddKeys > 0 {
        return None;
      }
      var datamap: map<string, Go> := map[];
      var todo := entries.Keys;
      while todo != {}
        invariant todo <= entries.Keys && datamap.Keys == entries.Keys - todo
        invariant forall k <- datamap :: GoOf(entries[k]) == Some(datamap[k])
        decreases todo
      {
        var k :| k in todo;
        var g := ToGoValue(entries[k]);
        if g.None? {
          return None;
        }
        datamap := datamap[k := g.value];
        todo := todo - {k};
      }
      MapOf(entries, datamap);
      r := Some(Map(datamap));
    case Callable => r := None;
  }

  // ---- Round trips ----

  /** Only known types inside. */
  ghost predicate Representable(g: Go) {
    match g
    case Slice(elems) => forall i :: 0 <= i < |elems| ==> Representable(elems[i])
    case Map(entries) => forall k <- entries :: Representable(entries[k])
    case Opaque => false
    case _ => true
  }

  /** The same value with every integer as an int64 where it fits, else as a uint64, and every float as a float64. */
  function Normal(g: Go): (n: Go) {
    match g
    case GoInt(_, n) => GoInt(if n < TWO_63 then Int64 else Uint64, n)
    case GoFloat(_, r) => GoFloat(false, r)
    case Slice(elems) => Slice(seq(|elems|, i requires 0 <= i < |elems| => Normal(elems[i])))
    case Map(entries) => Map(map k | k in entries :: Normal(entries[k]))
    case _ => g
  }

  lemma IntFits(kind: Kind, n: int)
    requires InRange(kind, n)
    ensures -TWO_63 <= n < TWO_64
    ensures InRange(if n < TWO_63 then Int64 else Uint64, n)
  {
    SmallPowers();
    hide Pow2;
  }

  /** What is proved of a value and its parts. */
  ghost predicate TripsTo(g: Go, n: Go) {
    && (StarOf(g).Some? <==> Representable(g))
    && (StarOf(g).Some? ==> GoOf(StarOf(g).value) == Some(n) && Typed(n) && Representable(n))
  }

  /** The way there succeeds exactly on representable values; the way back then succeeds too, and yields the normal
      form, which is a value of Go's. */
  lemma {:induction false} RoundTrip(g: Go)
    requires Typed(g)
    ensures TripsTo(g, Normal(g))
  {
    match g
    case GoInt(kind, n) => IntFits(kind, n);
    case Slice(elems) =>
      forall i | 0 <= i < |elems| ensures TripsTo(elems[i], Normal(elems[i])) {
        RoundTrip(elems[i]);
      }
      SliceTrips(elems, Normal(g).elems);
    case Map(entries) =>
      forall k <- entries ensures TripsTo(entries[k], Normal(entries[k])) {
        RoundTrip(entries[k]);
      }
      MapTrips(entries, Normal(g).entries);
    case _ =>
  }

  lemma SliceTrips(elems: seq<Go>, normal: seq<Go>)
    requires |normal| == |elems| && forall i :: 0 <= i < |elems| ==> TripsTo(elems[i], normal[i])
    ensures TripsTo(Slice(elems), Slice(normal))
  {
    if StarOf(Slice(elems)).Some? {
      var list := StarOf(Slice(elems)).value.elems;
      assert forall i :: 0 <= i < |elems| ==> TripsTo(elems[i], normal[i]) && StarOf(elems[i]) == Some(list[i]);
      SliceOf(list, normal);
    }
  }

  lemma MapTrips(entries: map<string, Go>, normal: map<string, Go>)
    requires normal.Keys == entries.Keys && forall k <- entries :: TripsTo(entries[k], normal[k])
    ensures TripsTo(Map(entries), Map(normal))
  {
    if StarOf(Map(entries)).Some? {
      var dict := StarOf(Map(entries)).value.entries;
      assert forall k <- entries :: TripsTo(entries[k], normal[k]) && StarOf(entries[k]) == Some(dict[k]);
      MapOf(dict, normal);
    }
  }

  lemma {:induction false} NormalTwice(g: Go)
    requires Typed(g)
    ensures Normal(Normal(g)) == Normal(g)
  {
    match g
    case Slice(elems) =>
      forall i | 0 <= i < |elems| ensures Normal(Normal(elems[i])) == Normal(elems[i]) {
        NormalTwice(elems[i]);
      }
    case Map(entries) =>
      forall k <- entries ensures Normal(Normal(entries[k])) == Normal(entries[k]) {
        NormalTwice(entries[k]);
      }
    case _ =>
  }

  /** A second round trip changes nothing. */
  lemma SecondRoundTrip(g: Go)
    requires Typed(g) && Representable(g)
    ensures StarOf(Normal(g)).Some? && GoOf(StarOf(Normal(g)).value) == Some(Normal(g))
  {
    RoundTrip(g);
    RoundTrip(Normal(g));
    NormalTwice(g);
  }

  /** No month or weekday inside: those come back as strings. */
  ghost predicate Plain(v: Star) {
    match v
    case Month(_) => false
    case Weekday(_) => false
    case List(elems) => forall i :: 0 <= i < |elems| ==> Plain(elems[i])
    case Dict(entries, _) => forall k <- entries :: Plain(entries[k])
    case _ => true
  }

  ghost predicate ComesBack(v: Star) {
    GoOf(v).Some? ==> StarOf(GoOf(v).value).Some? && (StarOf(GoOf(v).value) == Some(v) <==> Plain(v))
  }

  /** A Starlark value that Go can hold comes back, as itself if and only if it is plain. */
  lemma {:induction false} BackTrip(v: Star)
    ensures ComesBack(v)
  {
    match v
    case List(elems) =>
      forall i | 0 <= i < |elems| ensures ComesBack(elems[i]) {
        BackTrip(elems[i]);
      }
      ListBack(elems);
    case Dict(entries, _) =>
      forall k <- entries ensures ComesBack(entries[k]) {
        BackTrip(entries[k]);
      }
      DictBack(entries);
    case _ =>
  }

  lemma ListBack(elems: seq<Star>)
    requires forall i :: 0 <= i < |elems| ==> ComesBack(elems[i])
    ensures ComesBack(List(elems))
  {
    if GoOf(List(elems)).Some? {
      var slice := GoOf(List(elems)).value.elems;
      var back := seq(|elems|, i requires 0 <= i < |elems| && StarOf(slice[i]).Some? => StarOf(slice[i]).value);
      ListOf(slice, back);
      if back == elems {
        assert forall i :: 0 <= i < |elems| ==> back[i] == elems[i];
      } else {
        var i :| 0 <= i < |elems| && back[i] != elems[i];
        assert ComesBack(elems[i]) && !Plain(elems[i]);
      }
    }
  }

  lemma DictBackValues(entries: map<string, Star>, datamap: map<string, Go>, back: map<string, Star>)
    requires datamap.Keys == entries.Keys == back.Keys
    requires forall k <- entries ::
               ComesBack(entries[k]) && GoOf(entries[k]) == Some(datamap[k]) && StarOf(datamap[k]) == Some(back[k])
    ensures back == entries <==> forall k <- entries :: Plain(entries[k])
  {
    forall k <- entries ensures back[k] == entries[k] <==> Plain(entries[k]) {
    }
  }

  lemma DictBack(entries: map<string, Star>)
    requires forall k <- entries :: ComesBack(entries[k])
    ensures ComesBack(Dict(entries, 0))
  {
    if GoOf(Dict(entries, 0)).Some? {
      var datamap := GoOf(Dict(entries, 0)).value.entries;
      var back := map k | k in datamap :: StarOf(datamap[k]).value;
      DictOf(datamap, back);
      DictBackValues(entries, datamap, back);
    }
  }

  // ---- What both sides mean ----

  /** What a value says, whichever side it is on. */
  datatype Meaning =
    | Nothing
    | Text(s: string)
    | Truth(b: bool)
    | Whole(n: int)
    | Number(r: real)
    | Span(d: int)
    | Instant(t: int)
    | Several(elems: seq<Meaning>)
    | Entries(entries: map<string, Meaning>)
    | Unknown

  function GoSays(g: Go): Meaning {
    match g
    case Nil => Nothing
    case GoString(s) => Text(s)
    case GoBool(b) => Truth(b)
    case GoInt(_, n) => Whole(n)
    case GoFloat(_, r) => Number(r)
    case GoDuration(d) => Span(d)
    case GoTime(t) => Instant(t)
    case Slice(elems) => Several(seq(|elems|, i requires 0 <= i < |elems| => GoSays(elems[i])))
    case Map(entries) => Entries(map k | k in entries :: GoSays(entries[k]))
    case Opaque => Unknown
  }

  /** A month or a weekday says its name. */
  function StarSays(v: Star): Meaning {
    match v
    case NoneType => Nothing
    case String(s) => Text(s)
    case Bool(b) => Truth(b)
    case BigInt(n) => Whole(n)
    case Float(r) => Number(r)
    case Duration(d) => Span(d)
    case Time(t) => Instant(t)
    case Month(name) => Text(name)
    case Weekday(name) => Text(name)
    case List(elems) => Several(seq(|elems|, i requires 0 <= i < |elems| => StarSays(elems[i])))
    case Dict(entries, _) => Entries(map k | k in entries :: StarSays(entries[k]))
    case Callable => Unknown
  }

  /** The way there does not change what a value says. */
  lemma {:induction false} StarMeans(g: Go)
    ensures StarOf(g).Some? ==> StarSays(StarOf(g).value) == GoSays(g)
  {
    match g
    case Slice(elems) =>
      forall i | 0 <= i < |elems|
        ensures StarOf(elems[i]).Some? ==> StarSays(StarOf(elems[i]).value) == GoSays(elems[i])
      {
        StarMeans(elems[i]);
      }
    case Map(entries) =>
      forall k <- entries
        ensures StarOf(entries[k]).Some? ==> StarSays(StarOf(entries[k]).value) == GoSays(entries[k])
      {
        StarMeans(entries[k]);
      }
    case _ =>
  }

  /** A Starlark value that Go can hold: no function, no integer beyond 64 bits, and only string keys. */
  ghost predicate Holdable(v: Star) {
    match v
    case BigInt(n) => -Pow2(63) <= n < Pow2(64)
    case List(elems) => forall i :: 0 <= i < |elems| ==> Holdable(elems[i])
    case Dict(entries, oddKeys) => oddKeys == 0 && forall k <- entries :: Holdable(entries[k])
    case Callable => false
    case _ => true
  }

  /** What is proved of a value and its parts. */
  ghost predicate MeansAlike(v: Star) {
    && (GoOf(v).Some? <==> Holdable(v))
    && (GoOf(v).Some? ==> GoSays(GoOf(v).value) == StarSays(v))
  }

  lemma ListMeans(elems: seq<Star>)
    requires forall i :: 0 <= i < |elems| ==> MeansAlike(elems[i])
    ensures MeansAlike(List(elems))
  {
    assert (forall i :: 0 <= i < |elems| ==> GoOf(elems[i]).Some?) <==> Holdable(List(elems));
    if GoOf(List(elems)).Some? {
      var slice := GoOf(List(elems)).value.elems;
      assert forall i :: 0 <= i < |elems| ==> GoSays(slice[i]) == StarSays(elems[i]);
    }
  }

  lemma DictMeans(entries: map<string, Star>, oddKeys: nat)
    requires forall k <- entries :: MeansAlike(entries[k])
    ensures MeansAlike(Dict(entries, oddKeys))
  {
    assert (oddKeys == 0 && forall k <- entries :: GoOf(entries[k]).Some?) <==> Holdable(Dict(entries, oddKeys));
    if GoOf(Dict(entries, oddKeys)).Some? {
      var datamap := GoOf(Dict(entries, oddKeys)).value.entries;
      assert forall k <- entries :: GoSays(datamap[k]) == StarSays(entries[k]);
    }
  }

  lemma AtomMeans(v: Star)
    requires !v.List? && !v.Dict?
    ensures MeansAlike(v)
  {
    SmallPowers();
    hide Pow2;
  }

  /** The way back succeeds exactly on holdable values and does not change what they say: a month or a weekday becomes
      its name. */
  lemma {:induction false} GoMeans(v: Star)
    ensures GoOf(v).Some? <==> Holdable(v)
    ensures GoOf(v).Some? ==> GoSays(GoOf(v).value) == StarSays(v)
  {
    hide GoOf, GoSays, StarSays, Holdable;
    match v
    case List(elems) =>
      forall i | 0 <= i < |elems| ensures MeansAlike(elems[i]) {
        GoMeans(elems[i]);
      }
      ListMeans(elems);
    case Dict(entries, oddKeys) =>
      forall k <- entries ensures MeansAlike(entries[k]) {
        GoMeans(entries[k]);
      }
      DictMeans(entries, oddKeys);
    case _ => AtomMeans(v);
  }
}
