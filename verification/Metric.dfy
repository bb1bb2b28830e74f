/** The incrementally kept metric of the stats processor (plugins/processors/stats/metric.go): sums over exact
    reals, counters as float64. */
module Metric {
  import opened Powers

  const MaxFloat64Int: nat :=
    179769313486231570814527423731704356798070567525844996598917476803157260780028538760589558632766878171540458953514382464234321326889464182768467546703537516986049910576551282076245490090389328944075868508455133942304583236903222948165808559332123348274797826204144723168738177180919299881250404026184124858368

  const MaxFloat64: real := MaxFloat64Int as real

  /** What happens to a metric: a value is observed, or it is reset after a flush. */
  datatype Op = Observe(value: real) | Reset

  // ---- The history, folded ----

  function Values(ops: seq<Op>): seq<real> {
    if ops == [] then []
    else
      var front, last := Values(ops[..|ops| - 1]), ops[|ops| - 1];
      if last.Observe? then front + [last.value] else front
  }

  /** The values since the last reset. */
  function Recent(ops: seq<Op>): seq<real> {
    if ops == [] || ops[|ops| - 1].Reset? then []
    else Recent(ops[..|ops| - 1]) + [ops[|ops| - 1].value]
  }

  lemma {:induction false} ValuesJoin(a: seq<Op>, b: seq<Op>)
    ensures Values(a + b) == Values(a) + Values(b)
  {
    if b == [] {
      assert a + b == a;
    } else {
      ValuesJoin(a, b[..|b| - 1]);
      assert (a + b)[..|a + b| - 1] == a + b[..|b| - 1];
    }
  }

  /** A reset ends what is recent and nothing else: after it only what is observed later is, while the values of the
      whole history are all that were ever observed. */
  lemma {:induction false} SinceReset(before: seq<Op>, after: seq<Op>)
    requires forall k :: 0 <= k < |after| ==> after[k].Observe?
    ensures Recent(before + [Reset] + after) == Values(after) && |Values(after)| == |after|
    ensures forall k :: 0 <= k < |after| ==> Values(after)[k] == after[k].value
    ensures Values(before + [Reset] + after) == Values(before) + Values(after)
  {
    var all := before + [Reset] + after;
    if after == [] {
      assert all == before + [Reset];
      ValuesJoin(before, [Reset]);
      assert Values([Reset]) == [];
    } else {
      var front := after[..|after| - 1];
      SinceReset(before, front);
      assert all[..|all| - 1] == before + [Reset] + front;
      assert all[|all| - 1] == after[|after| - 1] && all != [];
      assert Recent(all) == Recent(all[..|all| - 1]) + [all[|all| - 1].value];
      assert Values(all) == Values(all[..|all| - 1]) + [all[|all| - 1].value];
      assert Values(after) == Values(front) + [after[|after| - 1].value];
      hide Recent, Values;
    }
  }

  function Total(vs: seq<real>): real {
    if vs == [] then 0.0 else Total(vs[..|vs| - 1]) + vs[|vs| - 1]
  }

  /** The number of values at or below a bound. */
  function AtOrBelow(vs: seq<real>, le: real): (n: nat)
    ensures n <= |vs|
  {
    if vs == [] then 0 else AtOrBelow(vs[..|vs| - 1], le) + if vs[|vs| - 1] <= le then 1 else 0
  }

  ghost predicate Least(vs: seq<real>, m: real) {
    (exists i :: 0 <= i < |vs| && vs[i] == m) && forall i :: 0 <= i < |vs| ==> m <= vs[i]
  }

  ghost predicate Greatest(vs: seq<real>, m: real) {
    (exists i :: 0 <= i < |vs| && vs[i] == m) && forall i :: 0 <= i < |vs| ==> vs[i] <= m
  }

  const TWO_53: nat := 0x20_0000_0000_0000

  /** 1 added to a whole number as a float64, for the numbers up to 2^53 that a counter gets to: the sum is exact, but
      at 2^53 it is rounded back. */
  function PlusOne(x: nat): nat {
    if x < TWO_53 then x + 1 else x
  }

  /** The whole numbers that a float64 can hold: at most 53 binary digits, and any number of zeros after them. */
  ghost predicate IsFloat(n: nat) {
    exists m: nat, e: nat :: Scaled(n, m, e)
  }

  ghost predicate Scaled(n: nat, m: nat, e: nat) {
    m < Pow2(53) && n == m * Pow2(e)
  }

  function Gap(a: nat, b: nat): nat {
    if a < b then b - a else a - b
  }

  /** What PlusOne gives is the float64 nearest to the sum. At 2^53 the sum is no float64, its two neighbours are
      equally near, and the one below has the even digits, which is where the standard rounds to. */
  lemma PlusOneRounds(x: nat)
    requires x <= Pow2(53)
    ensures IsFloat(PlusOne(x))
    ensures PlusOne(x) == x + 1 <==> IsFloat(x + 1)
    ensures forall y: nat :: IsFloat(y) ==> Gap(PlusOne(x), x + 1) <= Gap(y, x + 1)
    ensures x < Pow2(53) <==> IsFloat(x + 1)
    ensures x == Pow2(53) ==> PlusOne(x) == x && Scaled(x, Pow2(52), 1) && Scaled(x + 2, Pow2(52) + 1, 1)
    ensures Pow2(52) % 2 == 0
  {
    SmallPowers();
    assert Pow2(0) == 1 && Pow2(1) == 2 && Pow2(2) == 4;
    SumOfExponents(51, 1);
    hide Pow2;
    if x + 1 < Pow2(53) {
      assert Scaled(x + 1, x + 1, 0);
    } else {
      assert Scaled(Pow2(53), Pow2(52), 1);
    }
    if x == Pow2(53) && IsFloat(x + 1) {
      var m: nat, e: nat :| Scaled(x + 1, m, e);
      OddIsShort(x + 1, m, e);
    }
  }

  lemma ZerosAreEven(n: nat, m: nat, e: nat)
    requires Scaled(n, m, e) && e > 0
    ensures n % 2 == 0
  {
    var p := Pow2(e - 1);
    assert Pow2(e) == 2 * p;
    hide Pow2;
    assert m * (2 * p) == 2 * (m * p);
  }

  /** An odd number has no zeros after its digits. */
  lemma OddIsShort(n: nat, m: nat, e: nat)
    requires Scaled(n, m, e) && n % 2 == 1
    ensures n < Pow2(53)
  {
    if e > 0 {
      ZerosAreEven(n, m, e);
    } else {
      assert Pow2(e) == 1;
    }
    hide Pow2;
  }

  /** What a counter shows after n increments, each of which restarts it rather than letting it reach MaxFloat64. */
  function Shown(n: nat): nat {
    if n == 0 then 0
    else
      var before := Shown(n - 1);
      if PlusOne(before) == MaxFloat64Int then PlusOne(0) else PlusOne(before)
  }

  lemma ShownNext(n: nat)
    ensures Shown(n + 1) == if PlusOne(Shown(n)) == MaxFloat64Int then PlusOne(0) else PlusOne(Shown(n))
  {
  }

  /** A counter shows the number of its increments up to 2^53, and then stays there: it never comes near the bound
      that its guard looks for. */
  lemma {:induction false} ShownIsExactIff(n: nat)
    ensures Shown(n) == n <==> n <= TWO_53
    ensures Shown(n) <= TWO_53 && PlusOne(Shown(n)) != MaxFloat64Int
    ensures n >= TWO_53 ==> Shown(n) == TWO_53
  {
    if n > 0 {
      ShownIsExactIff(n - 1);
    }
  }

  /** What the guard of `observe` has taken out of the sum: the sum so far, whenever adding the value to it would
      have given exactly MaxFloat64. */
  function Lost(ops: seq<Op>): real
    decreases |ops|, 0
  {
    if ops == [] then 0.0
    else
      var front, last := ops[..|ops| - 1], ops[|ops| - 1];
      if last.Observe? && Stored(front) + last.value == MaxFloat64 then Lost(front) + Stored(front) else Lost(front)
  }

  /** The sum as it is stored. */
  function Stored(ops: seq<Op>): real
    decreases |ops|, 1
  {
    Total(Values(ops)) - Lost(ops)
  }

  /** Some value brought the stored sum to exactly MaxFloat64, and was not itself MaxFloat64. */
  ghost predicate Wrapped(ops: seq<Op>) {
    exists k :: 0 <= k < |ops| && WrapsAt(ops, k)
  }

  ghost predicate WrapsAt(ops: seq<Op>, k: nat)
    requires k < |ops|
  {
    ops[k].Observe? && ops[k].value != MaxFloat64 && Stored(ops[..k]) + ops[k].value == MaxFloat64
  }

  /** Every value is a finite float. */
  ghost predicate Finite(ops: seq<Op>) {
    forall k :: 0 <= k < |ops| && ops[k].Observe? ==> ops[k].value <= MaxFloat64
  }

  lemma WrappedFront(ops: seq<Op>)
    requires ops != []
    ensures Wrapped(ops) <==> Wrapped(ops[..|ops| - 1]) || WrapsAt(ops, |ops| - 1)
  {
    hide Stored;
    var front := ops[..|ops| - 1];
    forall k: nat | k < |front| ensures WrapsAt(front, k) == WrapsAt(ops, k) {
      assert front[..k] == ops[..k];
    }
    if Wrapped(front) {
      var k :| 0 <= k < |front| && WrapsAt(front, k);
      assert WrapsAt(ops, k);
    }
    if Wrapped(ops) && !WrapsAt(ops, |front|) {
      var k :| 0 <= k < |ops| && WrapsAt(ops, k);
      assert WrapsAt(front, k);
    }
  }

  lemma {:induction false} LostIsZeroIff(ops: seq<Op>)
    requires Finite(ops)
    ensures Lost(ops) >= 0.0 && (Lost(ops) == 0.0 <==> !Wrapped(ops))
  {
    if ops != [] {
      var n := |ops| - 1;
      var front := ops[..n];
      LostIsZeroIff(front);
      WrappedFront(ops);
      hide Stored;
    }
  }

  /** The stored sum is the sum of all values observed if and only if no observation has hit the guard. */
  lemma SumIsExactIff(ops: seq<Op>)
    requires Finite(ops)
    ensures Stored(ops) == Total(Values(ops)) <==> !Wrapped(ops)
  {
    LostIsZeroIff(ops);
  }

  /** It does happen: half of MaxFloat64, observed twice, leaves half of it in the sum. */
  lemma HalvesAreLost(half: real)
    requires half == MaxFloat64 / 2.0
    ensures Finite([Observe(half), Observe(half)]) && Wrapped([Observe(half), Observe(half)])
    ensures Total(Values([Observe(half), Observe(half)])) == MaxFloat64
    ensures Stored([Observe(half), Observe(half)]) == half
  {
    assert 0.0 < half < half + half == MaxFloat64;
    TwiceTheSame(half);
  }

  lemma TwiceTheSame(v: real)
    requires 0.0 < v < v + v == MaxFloat64
    ensures Finite([Observe(v), Observe(v)]) && Wrapped([Observe(v), Observe(v)])
    ensures Total(Values([Observe(v), Observe(v)])) == v + v && Stored([Observe(v), Observe(v)]) == v
  {
    assert Stored([]) == 0.0 && Values([]) == [];
    hide MaxFloat64, MaxFloat64Int, Stored, Lost, Total, Values;
    var one, two := [Observe(v)], [Observe(v), Observe(v)];
    Appended([], Observe(v));
    Appended(one, Observe(v));
    assert [] + one == one && one + one == two && [] + [v] == [v] && two[..1] == one;
    assert Stored(one) == v && Values(two) == [v] + [v];
    TotalAppended([], v);
    TotalAppended([v], v);
    assert WrapsAt(two, 1);
  }

  lemma Appended(ops: seq<Op>, op: Op)
    ensures Values(ops + [op]) == if op.Observe? then Values(ops) + [op.value] else Values(ops)
    ensures Recent(ops + [op]) == if op.Observe? then Recent(ops) + [op.value] else []
    ensures Stored(ops + [op])
         == if op.Reset? then Stored(ops)
            else if Stored(ops) + op.value == MaxFloat64 then op.value
            else Stored(ops) + op.value
  {
    var all := ops + [op];
    assert all[..|all| - 1] == ops;
    if op.Observe? {
      TotalAppended(Values(ops), op.value);
    }
  }

  lemma TotalAppended(vs: seq<real>, v: real)
    ensures Total(vs + [v]) == Total(vs) + v && Total([]) == 0.0
    ensures forall le :: AtOrBelow(vs + [v], le) == AtOrBelow(vs, le) + if v <= le then 1 else 0
  {
    assert (vs + [v])[..|vs|] == vs;
  }

  // ---- The metric ----

  class Metric {
    var count: nat
    var sum: real
    var gauge: real
    var avg: real
    var min: real
    var max: real
    var count2: real
    var buckets: map<real, nat>
    var observed: bool
    ghost var history: seq<Op>

    /** Every field is the fold of the history that it stands for. */
    ghost predicate Valid()
      reads this
    {
      var values, recent := Values(history), Recent(history);
      && count == Shown(|values|)
      && sum == Stored(history)
      && gauge == (if values == [] then 0.0 else values[|values| - 1])
      && (forall le <- buckets :: buckets[le] == Shown(AtOrBelow(values, le)))
      && (observed <==> recent != []) && count2 == |recent| as real
      && (recent == [] ==> avg == min == max == 0.0)
      && (recent != [] ==> avg * count2 == Total(recent) && Least(recent, min) && Greatest(recent, max))
    }

    constructor (bounds: set<real>)
      ensures Valid() && history == [] && buckets.Keys == bounds
    {
      count, sum, gauge, avg, min, max, count2 := 0, 0.0, 0.0, 0.0, 0.0, 0.0, 0.0;
      buckets := map le <- bounds :: 0;
      observed := false;
      history := [];
    }

    method Observe(value: real)
      requires Valid()
      modifies this
      ensures Valid() && history == old(history) + [Op.Observe(value)] && buckets.Keys == old(buckets.Keys)
      ensures gauge == value && observed
    {
      hide Stored, Total, Values, Recent, AtOrBelow, Least, Greatest, Shown;
      Appended(history, Op.Observe(value));
      ShownNext(|Values(history)|);
      if PlusOne(count) == MaxFloat64Int {
        count := 0;
      }
      count := PlusOne(count);
      if sum + value == MaxFloat64 {
        sum := 0.0;
      }
      sum := sum + value;
      gauge := value;
      FillBuckets(value);
      Average(value);
      history := history + [Op.Observe(value)];
    }

    method FillBuckets(value: real)
      requires forall le <- buckets :: buckets[le] == Shown(AtOrBelow(Values(history), le))
      modifies this`buckets
      ensures buckets.Keys == old(buckets.Keys)
      ensures forall le <- buckets :: buckets[le] == Shown(AtOrBelow(Values(history) + [value], le))
    {
      hide Shown, AtOrBelow, Values;
      TotalAppended(Values(history), value);
      var todo := buckets.Keys;
      while todo != {}
        invariant todo <= buckets.Keys == old(buckets.Keys)
        invariant forall le <- buckets ::
                    buckets[le] == Shown(AtOrBelow(if le in todo then Values(history) else Values(history) + [value],
                      le))
        decreases todo
      {
        var le :| le in todo;
        ShownNext(AtOrBelow(Values(history), le));
        if value <= le {
          if PlusOne(buckets[le]) == MaxFloat64Int {
            buckets := buckets[le := 0];
          }
          buckets := buckets[le := PlusOne(buckets[le])];
        }
        todo := todo - {le};
      }
    }

    method Average(value: real)
      requires var recent := Recent(history);
               && (observed <==> recent != []) && count2 == |recent| as real
               && (recent != [] ==> avg * count2 == Total(recent) && Least(recent, min) && Greatest(recent, max))
      modifies this`avg, this`min, this`max, this`count2, this`observed
      ensures observed && count2 == old(count2) + 1.0
      ensures var recent := Recent(history) + [value];
              avg * count2 == Total(recent) && Least(recent, min) && Greatest(recent, max)
    {
      hide Recent, Least, Greatest, Total;
      TotalAppended(Recent(history), value);
      Extremes(Recent(history), value, min, max);
      if observed {
        if value < min {
          min := value;
        }
        if value > max {
          max := value;
        }
        count2 := count2 + 1.0;
        NewAverage(avg, count2, value, Total(Recent(history)));
        avg := avg * (count2 - 1.0) / count2 + value / count2;
      } else {
        avg := value;
        min := value;
        max := value;
        count2 := 1.0;
        observed := true;
      }
    }

    method Reset()
      requires Valid()
      modifies this
      ensures Valid() && history == old(history) + [Op.Reset] && buckets == old(buckets)
      ensures count == old(count) && sum == old(sum) && gauge == old(gauge) && !observed
    {
      hide Stored;
      Appended(history, Op.Reset);
      observed := false;
      count2 := 0.0;
      avg := 0.0;
      min := 0.0;
      max := 0.0;
      history := history + [Op.Reset];
    }
  }

  /** The least and greatest values after one more. */
  lemma Extremes(vs: seq<real>, v: real, min: real, max: real)
    requires vs != [] ==> Least(vs, min) && Greatest(vs, max)
    ensures Least(vs + [v], if vs == [] || v < min then v else min)
    ensures Greatest(vs + [v], if vs == [] || v > max then v else max)
  {
    var all := vs + [v];
    assert all[|vs|] == v && forall i :: 0 <= i < |vs| ==> all[i] == vs[i];
    if vs != [] {
      var i :| 0 <= i < |vs| && vs[i] == min;
      var j :| 0 <= j < |vs| && vs[j] == max;
      assert all[i] == min && all[j] == max;
    }
  }

  lemma NewAverage(avg: real, n: real, value: real, total: real)
    requires n >= 1.0 && avg * (n - 1.0) == total
    ensures (avg * (n - 1.0) / n + value / n) * n == total + value
  {
    Quotients(avg * (n - 1.0), value, n);
  }

  lemma Quotients(x: real, y: real, n: real)
    requires n != 0.0
    ensures (x / n + y / n) * n == x + y
  {
  }

  // ---- What the numbers promise a reader ----

  /** Buckets with greater bounds hold no less, and a bucket that bounds all values holds the count. */
  lemma {:induction false} BucketsAreCumulative(vs: seq<real>, le: real, le': real)
    requires le <= le'
    ensures AtOrBelow(vs, le) <= AtOrBelow(vs, le') && Shown(AtOrBelow(vs, le)) <= Shown(AtOrBelow(vs, le'))
    ensures (forall i :: 0 <= i < |vs| ==> vs[i] <= le') <==> AtOrBelow(vs, le') == |vs|
  {
    ShownIsExactIff(AtOrBelow(vs, le));
    ShownIsExactIff(AtOrBelow(vs, le'));
    if vs != [] {
      var front, last := vs[..|vs| - 1], vs[|vs| - 1];
      BucketsAreCumulative(front, le, le');
      assert forall i :: 0 <= i < |front| ==> front[i] == vs[i];
      assert last <= le' || vs[|front|] > le';
    }
  }

  /** With something observed since the last reset, the metric's average lies between its minimum and maximum. */
  lemma AverageIsWithin(m: Metric)
    requires m.Valid() && m.observed
    ensures m.min <= m.avg <= m.max
  {
    hide Values, Recent, Stored, Shown, AtOrBelow, Total, Least, Greatest;
    var recent, n := Recent(m.history), m.count2;
    assert recent != [] && n == |recent| as real;
    assert m.avg * n == Total(recent) && Least(recent, m.min) && Greatest(recent, m.max);
    AverageOf(recent, m.min, m.avg, m.max);
  }

  lemma AverageOf(vs: seq<real>, min: real, avg: real, max: real)
    requires vs != [] && Least(vs, min) && Greatest(vs, max)
    requires avg * |vs| as real == Total(vs)
    ensures min <= avg <= max
  {
    hide Total;
    AverageIsBetween(vs, min, max);
    Divided(min, avg, max, |vs| as real, Total(vs));
  }

  lemma Divided(min: real, avg: real, max: real, n: real, total: real)
    requires n > 0.0 && avg * n == total && min * n <= total <= max * n
    ensures min <= avg <= max
  {
    NotNegative(avg - min, n);
    NotNegative(max - avg, n);
  }

  lemma NotNegative(x: real, n: real)
    requires n > 0.0 && x * n >= 0.0
    ensures x >= 0.0
  {
    assert x == x * n / n;
  }

  /** The total of a sequence lies between the bounds of its elements, times its length. */
  lemma {:induction false} AverageIsBetween(vs: seq<real>, min: real, max: real)
    requires forall i :: 0 <= i < |vs| ==> min <= vs[i] <= max
    ensures min * |vs| as real <= Total(vs) <= max * |vs| as real
  {
    if vs != [] {
      var front := vs[..|vs| - 1];
      AverageIsBetween(front, min, max);
      assert min * |vs| as real == min * |front| as real + min;
      assert max * |vs| as real == max * |front| as real + max;
    }
  }
}
