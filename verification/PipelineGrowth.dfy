/** The whole graph of a configuration as it grows: what each unit adds to what was there, and where every unit comes to
    stand, in plain numbers. */
module PipelineGrowth {
  import opened Options
  import opened Graph
  import opened Topology
  import opened GraphFlow

  /** What was there has stayed, and every goroutine that has been added reads an added channel or one of `ins`. */
  ghost predicate Adds(a: Net, b: Net, ins: set<nat>) {
    && a.gs <= b.gs && a.chans <= b.chans
    && forall x :: |a.gs| <= x < |b.gs| && !b.gs[x].kind.Input? ==>
         b.gs[x].input < |b.chans| && (b.gs[x].input in ins || b.gs[x].input >= |a.chans|)
  }

  /** What was there has stayed. */
  ghost predicate Within(a: Net, b: Net) {
    a.gs <= b.gs && a.chans <= b.chans
  }

  lemma AddsWithin(a: Net, b: Net, ins: set<nat>)
    requires Adds(a, b, ins)
    ensures Within(a, b)
  {
  }

  /** Every goroutine reads a channel that is there. */
  ghost predicate Inside(net: Net) {
    forall x :: 0 <= x < |net.gs| && !net.gs[x].kind.Input? ==> net.gs[x].input < |net.chans|
  }

  lemma AddsMore(a: Net, b: Net, c: Net, ins: set<nat>, more: set<nat>)
    requires Adds(a, b, ins) && Adds(b, c, more) && forall i <- more :: i in ins || i >= |a.chans|
    ensures Adds(a, c, ins)
  {
  }

  lemma StaysInside(a: Net, b: Net, ins: set<nat>)
    requires Inside(a) && Adds(a, b, ins)
    ensures Inside(b)
  {
  }

  /** A channel whose one close statement waits for exactly the goroutines from lo to hi. */
  ghost predicate ClosedBy(ch: Channel, buffer: nat, lo: nat, hi: int) {
    ch.capacity == buffer && |ch.closes| == 1 && forall x: nat :: x in ch.closes[0] <==> lo <= x <= hi
  }

  lemma RangeCloses(g: nat, n: nat, buffer: nat)
    requires n > 0
    ensures ClosedBy(Closing(buffer, Range(g, n)), buffer, g, g + n - 1)
  {
    forall x: nat ensures x in Range(g, n) <==> g <= x <= g + n - 1 {
      InRangeBounds(g, n, x);
    }
  }

  // ---- The units ----

  /** n filters, as the goroutines from g on, whose accepts channels are numbered from `next`. */
  ghost predicate FiltersAt(net: Net, g: nat, n: nat, in_: nat, rejects: nat, next: nat, buffer: nat) {
    && g + n <= |net.gs| && next + n <= |net.chans|
    && (forall x :: g <= x < g + n ==>
          net.gs[x] == Goroutine(Plugin, if x == g then in_ else next + (x - g) - 1, {rejects, next + (x - g)}, None))
    && forall c :: next <= c < next + n ==> ClosedBy(net.chans[c], buffer, g + (c - next), g + (c - next))
  }

  /** What the plugin behind n filters reads. */
  function Behind(n: nat, in_: nat, next: nat): nat {
    if n == 0 then in_ else next + n - 1
  }

  /** A processor unit: the filters reject to the unit's output, the processor sends there and to the drop channel,
      but a mixer only to the output; the drop channel is consumed. The output is closed when all goroutines of the unit
      have returned, the drop channel when the processor has. */
  ghost predicate ProcessorAt(net: Net, g: nat, own: nat, n: nat, in_: nat, group: Option<nat>, buffer: nat) {
    && FiltersAt(net, g, n, in_, own, own + 2, buffer)
    && g + n + 2 <= |net.gs| && own + 2 <= |net.chans|
    && net.gs[g + n] == Goroutine(Plugin, Behind(n, in_, own + 2), if group.Some? then {own} else {own, own + 1}, group)
    && net.gs[g + n + 1] == Goroutine(Sink, own + 1, {}, None)
    && ClosedBy(net.chans[own], buffer, g, g + n + 1) && ClosedBy(net.chans[own + 1], buffer, g + n, g + n)
  }

  /** An input unit: the input sends on the first channel, the filters reject to the second one, which is consumed. The
      first is closed when the input has returned, the second when the filters have, too. */
  ghost predicate InputAt(net: Net, g: nat, own: nat, n: nat, buffer: nat) {
    && FiltersAt(net, g + 1, n, own, own + 1, own + 2, buffer)
    && g + n + 2 <= |net.gs| && own + 2 <= |net.chans|
    && net.gs[g] == Goroutine(Input, 0, {own}, None)
    && net.gs[g + n + 1] == Goroutine(Sink, own + 1, {}, None)
    && ClosedBy(net.chans[own], buffer, g, g) && ClosedBy(net.chans[own + 1], buffer, g, g + n)
  }

  /** An output unit: the filters reject to the first of its own channels, the output sends on the second one, and both
      are consumed. They are closed when the output has returned. */
  ghost predicate OutputAt(net: Net, g: nat, own: nat, n: nat, in_: nat, buffer: nat) {
    && FiltersAt(net, g, n, in_, own, own + 2, buffer)
    && g + n + 3 <= |net.gs| && own + 2 <= |net.chans|
    && net.gs[g + n] == Goroutine(Plugin, Behind(n, in_, own + 2), {own + 1}, None)
    && net.gs[g + n + 1] == Goroutine(Sink, own, {}, None) && net.gs[g + n + 2] == Goroutine(Sink, own + 1, {}, None)
    && ClosedBy(net.chans[own], buffer, g + n, g + n) && ClosedBy(net.chans[own + 1], buffer, g + n, g + n)
  }

  lemma ChainIs(net: Net, gs: seq<Goroutine>, chans: seq<Channel>, n: nat, in_: nat, rejects: nat, buffer: nat)
    requires Chain(gs, n, in_, rejects, |chans|) <= net.gs && ChainChans(chans, |gs|, n, buffer) <= net.chans
    ensures FiltersAt(net, |gs|, n, in_, rejects, |chans|, buffer)
  {
    var all := Chain(gs, n, in_, rejects, |chans|);
    forall x | |gs| <= x < |gs| + n
      ensures net.gs[x] == Goroutine(Plugin, if x == |gs| then in_ else |chans| + (x - |gs|) - 1,
                                     {rejects, |chans| + (x - |gs|)}, None)
    {
      FilterAt(gs, n, in_, rejects, |chans|, x - |gs|);
      hide Chain, ChainChans;
      assert net.gs[x] == all[x];
    }
    hide Chain;
    var made := ChainChans(chans, |gs|, n, buffer);
    hide ChainChans;
    assert forall c :: |chans| <= c < |chans| + n ==> net.chans[c] == made[c];
  }

  lemma ProcessorIs(net: Net, filters: seq<Filter>, in_: nat, group: Option<nat>, buffer: nat)
    ensures var unit := ProcessorUnit(net, filters, in_, group, buffer);
            && ProcessorAt(unit, |net.gs|, |net.chans|, |filters|, in_, group, buffer)
            && |unit.gs| == |net.gs| + |filters| + 2 && |unit.chans| == |net.chans| + |filters| + 2
            && net.gs <= unit.gs && net.chans <= unit.chans
  {
    var unit := ProcessorUnit(net, filters, in_, group, buffer);
    var g, n := |net.gs|, |filters|;
    var chans := net.chans + [Closing(buffer, Range(g, n + 2))] + [Closing(buffer, {g + n})];
    assert net.gs <= Chain(net.gs, n, in_, |net.chans|, |chans|) <= unit.gs;
    ChainIs(unit, net.gs, chans, n, in_, |net.chans|, buffer);
    RangeCloses(g, n + 2, buffer);
    hide Chain, ChainChans, Range;
  }

  lemma InputIs(net: Net, filters: seq<Filter>, buffer: nat)
    ensures var unit := InputUnit(net, filters, buffer);
            && InputAt(unit, |net.gs|, |net.chans|, |filters|, buffer)
            && |unit.gs| == |net.gs| + |filters| + 2 && |unit.chans| == |net.chans| + |filters| + 2
            && net.gs <= unit.gs && net.chans <= unit.chans
            && InputOut(net, filters) == |net.chans| + if |filters| == 0 then 0 else |filters| + 1
  {
    var unit := InputUnit(net, filters, buffer);
    var g, own, n := |net.gs|, |net.chans|, |filters|;
    var gs := net.gs + [Goroutine(Input, 0, {own}, None)];
    var chans := net.chans + [Closing(buffer, {g})] + [Closing(buffer, Range(g, n + 1))];
    var all := Chain(gs, n, own, own + 1, own + 2);
    assert gs <= all <= unit.gs;
    ChainIs(unit, gs, chans, n, own, own + 1, buffer);
    RangeCloses(g, n + 1, buffer);
    hide Chain, ChainChans, Range;
  }

  lemma OutputIs(net: Net, filters: seq<Filter>, in_: nat, buffer: nat)
    ensures var unit := OutputUnit(net, filters, in_, buffer);
            && OutputAt(unit, |net.gs|, |net.chans|, |filters|, in_, buffer)
            && |unit.gs| == |net.gs| + |filters| + 3 && |unit.chans| == |net.chans| + |filters| + 2
            && net.gs <= unit.gs && net.chans <= unit.chans
  {
    var unit := OutputUnit(net, filters, in_, buffer);
    var g, n := |net.gs|, |filters|;
    var chans := net.chans + [Closing(buffer, {g + n})] + [Closing(buffer, {g + n})];
    assert net.gs <= Chain(net.gs, n, in_, |net.chans|, |chans|) <= unit.gs;
    ChainIs(unit, net.gs, chans, n, in_, |net.chans|, buffer);
    hide Chain, ChainChans;
  }

  lemma {:induction false} WorkersAre(gs: seq<Goroutine>, ins: seq<nat>, out: nat)
    ensures var all := Workers(gs, ins, out);
            && |all| == |gs| + |ins| && gs <= all
            && forall x :: |gs| <= x < |all| ==> all[x] == Goroutine(Plugin, ins[x - |gs|], {out}, None)
  {
    if ins != [] {
      WorkersAre(gs, ins[..|ins| - 1], out);
    }
  }

  // ---- Who reads what a unit sends ----

  ghost predicate OnlyReader(net: Net, c: nat, x: nat) {
    forall y: nat :: Reads(net, y, c) <==> y == x
  }

  ghost predicate NoReader(net: Net, c: nat) {
    forall y: nat :: !Reads(net, y, c)
  }

  lemma StaysOnly(a: Net, b: Net, ins: set<nat>, c: nat, x: nat)
    requires OnlyReader(a, c, x) && Adds(a, b, ins) && c !in ins && c < |a.chans|
    ensures OnlyReader(b, c, x)
  {
    assert Reads(a, x, c);
    forall y: nat ensures Reads(b, y, c) <==> y == x {
      assert Reads(a, y, c) <==> y == x;
      SameReader(a, b, y, c);
    }
  }

  lemma SameReader(a: Net, b: Net, y: nat, c: nat)
    requires a.gs <= b.gs
    ensures y < |a.gs| ==> (Reads(b, y, c) <==> Reads(a, y, c))
    ensures y >= |a.gs| ==> !Reads(a, y, c)
  {
  }

  lemma StaysUnread(a: Net, b: Net, ins: set<nat>, c: nat)
    requires NoReader(a, c) && Adds(a, b, ins) && c !in ins && c < |a.chans|
    ensures NoReader(b, c)
  {
    forall y: nat ensures !Reads(b, y, c) {
      assert !Reads(a, y, c);
      SameReader(a, b, y, c);
    }
  }

  /** The first reader of a channel that was there. */
  lemma FirstReader(a: Net, b: Net, c: nat, x: nat)
    requires NoReader(a, c) && a.gs <= b.gs && forall y: nat :: |a.gs| <= y ==> (Reads(b, y, c) <==> y == x)
    requires x >= |a.gs|
    ensures OnlyReader(b, c, x)
  {
    forall y: nat ensures Reads(b, y, c) <==> y == x {
      assert !Reads(a, y, c);
      SameReader(a, b, y, c);
    }
  }

  /** `unit` is `net` with a processor unit behind it; nobody reads the unit's output yet. */
  ghost predicate ProcessorAdded(net: Net, unit: Net, n: nat, in_: nat, group: Option<nat>, buffer: nat) {
    && |unit.gs| == |net.gs| + n + 2 && |unit.chans| == |net.chans| + n + 2 && unit.copies == net.copies
    && ProcessorAt(unit, |net.gs|, |net.chans|, n, in_, group, buffer)
    && Adds(net, unit, {in_}) && Inside(unit)
    && NoReader(unit, |net.chans|) && OnlyReader(unit, |net.chans| + 1, |net.gs| + n + 1)
    && forall y: nat :: |net.gs| <= y ==> (Reads(unit, y, in_) <==> y == |net.gs|)
  }

  lemma AddProcessor(net: Net, filters: seq<Filter>, in_: nat, group: Option<nat>, buffer: nat)
    requires Inside(net) && in_ < |net.chans|
    ensures ProcessorAdded(net, ProcessorUnit(net, filters, in_, group, buffer), |filters|, in_, group, buffer)
  {
    ProcessorIs(net, filters, in_, group, buffer);
    assert ProcessorUnit(net, filters, in_, group, buffer).copies == net.copies;
    hide ProcessorUnit;
  }

  /** The same for an input unit, whose output is `out`. */
  ghost predicate InputAdded(net: Net, unit: Net, n: nat, out: nat, buffer: nat) {
    && |unit.gs| == |net.gs| + n + 2 && |unit.chans| == |net.chans| + n + 2 && unit.copies == net.copies
    && InputAt(unit, |net.gs|, |net.chans|, n, buffer) && out == |net.chans| + (if n == 0 then 0 else n + 1)
    && Adds(net, unit, {}) && Inside(unit)
    && NoReader(unit, out) && OnlyReader(unit, |net.chans| + 1, |net.gs| + n + 1)
  }

  lemma AddInput(net: Net, filters: seq<Filter>, buffer: nat)
    requires Inside(net)
    ensures InputAdded(net, InputUnit(net, filters, buffer), |filters|, InputOut(net, filters), buffer)
  {
    InputIs(net, filters, buffer);
    assert InputUnit(net, filters, buffer).copies == net.copies;
    hide InputUnit;
  }

  /** The same for an output unit. */
  ghost predicate OutputAdded(net: Net, unit: Net, n: nat, in_: nat, buffer: nat) {
    && |unit.gs| == |net.gs| + n + 3 && |unit.chans| == |net.chans| + n + 2 && unit.copies == net.copies
    && OutputAt(unit, |net.gs|, |net.chans|, n, in_, buffer)
    && Adds(net, unit, {in_}) && Inside(unit)
    && OnlyReader(unit, |net.chans|, |net.gs| + n + 1) && OnlyReader(unit, |net.chans| + 1, |net.gs| + n + 2)
    && forall y: nat :: |net.gs| <= y ==> (Reads(unit, y, in_) <==> y == |net.gs|)
  }

  lemma AddOutput(net: Net, filters: seq<Filter>, in_: nat, buffer: nat)
    requires Inside(net) && in_ < |net.chans|
    ensures OutputAdded(net, OutputUnit(net, filters, in_, buffer), |filters|, in_, buffer)
  {
    OutputIs(net, filters, in_, buffer);
    assert OutputUnit(net, filters, in_, buffer).copies == net.copies;
    hide OutputUnit;
  }
}
