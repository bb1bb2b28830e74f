/** Every configuration's graph is a certified network: the certificate is put together along the steps in which the
    graph is. What is proved of all runs of certified networks then holds of all runs of a pipeline. */
module Certification {
  import opened Options
  import opened Graph
  import opened GraphTermination
  import opened Wiring
  import opened Topology

  /** A network in the making, with its certificate, the channels that nobody reads yet, and those whose senders
      their closes do not cover yet. */
  datatype Draft = Draft(net: Net, cert: Certificate, open: set<nat>, loose: set<nat>)

  ghost predicate Sound(d: Draft, stage: nat -> nat) {
    && Wired(d.net, d.cert, d.open, d.loose, stage)
    && |d.net.gs| == |d.cert.covers| == |d.cert.grank| && |d.cert.crank| == |d.net.chans|
  }

  /** Only what the new draft may change has changed. */
  ghost predicate Grown(d: Draft, d': Draft, stage: nat -> nat) {
    Sound(d', stage) && d'.loose == d.loose && d.cert.crank <= d'.cert.crank
  }

  // ---- Channels, goroutines and filters ----

  lemma MakeChan(d: Draft, stage: nat -> nat, buffer: nat, rank: nat) returns (d': Draft)
    requires Sound(d, stage)
    ensures Sound(d', stage)
    ensures d' == Draft(WithChannel(d.net, buffer), d.cert.(crank := d.cert.crank + [rank]),
                        d.open + {|d.net.chans|}, d.loose)
  {
    AddChannel(d.net, d.cert, d.open, d.loose, stage, buffer, rank);
    d' := Draft(WithChannel(d.net, buffer), d.cert.(crank := d.cert.crank + [rank]),
                d.open + {|d.net.chans|}, d.loose);
  }

  /** The goroutines of `before` have returned when the new goroutine's input is closed. */
  lemma Go(d: Draft, stage: nat -> nat, g: Goroutine, waits: set<nat>, before: set<nat>, rank: nat)
    returns (d': Draft)
    requires Sound(d, stage) && CanAdd(d.net, d.cert, d.loose, stage, g, waits, before + {|d.net.gs|}, rank)
    ensures Sound(d', stage) && |d'.net.chans| == |d.net.chans| && d'.net.gs == d.net.gs + [g]
    ensures forall c <- waits :: |d.net.gs| in Closer(d'.net, c)
    ensures d' == Draft(WithGoroutine(d.net, g, waits),
                        d.cert.(covers := d.cert.covers + [before + {|d.net.gs|}], grank := d.cert.grank + [rank]),
                        if g.kind.Input? then d.open else d.open - {g.input}, d.loose)
  {
    AddGoroutine(d.net, d.cert, d.open, d.loose, stage, g, waits, before + {|d.net.gs|}, rank);
    assert forall c <- waits :: ChannelFits(d.net, d.cert, d.open, c);
    d' := Draft(WithGoroutine(d.net, g, waits),
                d.cert.(covers := d.cert.covers + [before + {|d.net.gs|}], grank := d.cert.grank + [rank]),
                if g.kind.Input? then d.open else d.open - {g.input}, d.loose);
  }

  lemma AddFilter(d: Draft, stage: nat -> nat, buffer: nat, input: nat, rejects: nat, waits: bool,
                  before: set<nat>, rank: nat)
    returns (d': Draft)
    requires Sound(d, stage) && input < |d.net.chans| && d.cert.crank[input] <= rank
    requires rejects < |d.net.chans| && rank < d.cert.crank[rejects] && (waits || rejects in d.loose)
    requires forall x <- before :: x < |d.net.gs| && Covered(d.net, d.cert, x, input)
    ensures Sound(d', stage) && d'.loose == d.loose && d'.net == OneFilter(d.net, input, rejects, waits, buffer)
    ensures d'.cert == Certificate(d.cert.covers + [before + {|d.net.gs|}], d.cert.grank + [rank],
                                   d.cert.crank + [rank + 1])
    ensures Closer(d'.net, |d.net.chans|) == {|d.net.gs|} && d'.open - {|d.net.chans|} <= d.open - {input}
  {
    var accepts := |d.net.chans|;
    var d1 := MakeChan(d, stage, buffer, rank + 1);
    forall x <- before ensures Covered(d1.net, d1.cert, x, input) {
      CoveredStays(d.net, d.cert, d1.net, d1.cert, x, input);
    }
    d' := Go(d1, stage, Goroutine(Plugin, input, {rejects, accepts}, None),
             {accepts} + if waits then {rejects} else {}, before, rank);
  }

  /** A channel that a filter's close statement covers the filter and everything before it. */
  lemma FilterCovers(net: Net, cert: Certificate, g0: nat, j: nat, c: nat)
    requires g0 + j < |cert.covers| && cert.covers[g0 + j] == Range(g0, j) + {g0 + j} && g0 + j in Closer(net, c)
    ensures forall x <- Range(g0, j + 1) :: Covered(net, cert, x, c)
  {
  }

  lemma {:induction false} StartFilters(d: Draft, stage: nat -> nat, buffer: nat, n: nat, first: nat, rejects: nat,
                                        waits: bool, base: nat)
    returns (d': Draft)
    requires Sound(d, stage) && first < |d.net.chans| && rejects < |d.net.chans| && (waits || rejects in d.loose)
    requires d.cert.crank[first] <= base && base + n <= d.cert.crank[rejects]
    ensures Grown(d, d', stage) && d'.net == FiltersOn(d.net, n, first, rejects, waits, buffer)
    ensures var last := Accepts(first, |d.net.chans|, n);
            && last < |d'.net.chans| && d'.cert.crank[last] <= base + n
            && d'.open - {last} <= d.open - {first}
            && forall x <- Range(|d.net.gs|, n) :: x < |d'.net.gs| && Covered(d'.net, d'.cert, x, last)
  {
    hide Wired, Covered, OneFilter, FiltersOn;
    if n == 0 {
      NoFilters(d.net, first, rejects, waits, buffer);
      d' := d;
    } else {
      var d1 := StartFilters(d, stage, buffer, n - 1, first, rejects, waits, base);
      MoreFilters(d.net, n - 1, first, rejects, waits, buffer);
      d' := AddFilter(d1, stage, buffer, Accepts(first, |d.net.chans|, n - 1), rejects, waits,
                      Range(|d.net.gs|, n - 1), base + n - 1);
      FilterCovers(d'.net, d'.cert, |d.net.gs|, n - 1, |d.net.chans| + n - 1);
    }
  }

  // ---- Units ----

  lemma AddProcessor(d: Draft, stage: nat -> nat, buffer: nat, filters: seq<Filter>, in_: nat, group: Option<nat>,
                     base: nat)
    returns (d': Draft)
    requires Sound(d, stage) && in_ < |d.net.chans| && d.cert.crank[in_] <= base && d.loose == {}
    requires group.Some? ==> stage(group.value) == base + |filters|
    ensures Grown(d, d', stage) && d'.net == ProcessorUnit(d.net, filters, in_, group, buffer)
    ensures var out := |d.net.chans|;
            d'.open <= d.open - {in_} + {out} && out < |d'.net.chans| && d'.cert.crank[out] == base + |filters| + 3
  {
    ProcessorBuilt(d.net, filters, in_, group, buffer);
    hide Wired, Covered, WithChannel, WithGoroutine, Closer, FiltersOn, ProcessorUnit;
    var out := |d.net.chans|;
    var d1 := MakeChan(d, stage, buffer, base + |filters| + 3);
    var d2 := MakeChan(d1, stage, buffer, base + |filters| + 1);
    var d3 := StartFilters(d2, stage, buffer, |filters|, in_, out, true, base);
    var input := Accepts(in_, out + 2, |filters|);
    assert forall x <- d3.open :: x == input || x in d3.open - {input};
    d' := StartProcessor(d3, stage, input, out, group, base + |filters|);
  }

  /** The processor, which the closes of both channels wait for, and the consumer of what it drops. */
  lemma StartProcessor(d: Draft, stage: nat -> nat, input: nat, out: nat, group: Option<nat>, rank: nat)
    returns (d': Draft)
    requires Sound(d, stage) && d.loose == {} && input < |d.net.chans| && out + 1 < |d.net.chans|
    requires d.cert.crank[input] <= rank && d.cert.crank[out + 1] == rank + 1 && d.cert.crank[out] == rank + 3
    requires group.Some? ==> stage(group.value) == rank
    ensures Sound(d', stage) && d'.loose == {} && d'.cert.crank == d.cert.crank && d'.open == d.open - {input, out + 1}
    ensures var p := Goroutine(Plugin, input, if group.Some? then {out} else {out, out + 1}, group);
            d'.net == WithGoroutine(WithGoroutine(d.net, p, {out, out + 1}), Goroutine(Sink, out + 1, {}, None), {out})
  {
    hide Wired, Covered, WithChannel, WithGoroutine, Closer;
    var outs := if group.Some? then {out} else {out, out + 1};
    var d1 := Go(d, stage, Goroutine(Plugin, input, outs, group), {out, out + 1}, {}, rank);
    d' := Go(d1, stage, Goroutine(Sink, out + 1, {}, None), {out}, {}, rank + 2);
  }

  lemma AddInput(d: Draft, stage: nat -> nat, buffer: nat, filters: seq<Filter>) returns (d': Draft)
    requires Sound(d, stage) && d.loose == {}
    ensures Grown(d, d', stage) && d'.net == InputUnit(d.net, filters, buffer)
    ensures var out := InputOut(d.net, filters);
            d'.open <= d.open + {out} && out < |d'.net.chans| && d'.cert.crank[out] <= |filters| + 1
  {
    InputBuilt(d.net, filters, buffer);
    hide Wired, Covered, WithChannel, WithGoroutine, Closer, FiltersOn, InputUnit;
    var first, rej := |d.net.chans|, |d.net.chans| + 1;
    var d1 := StartInput(d, stage, buffer, |filters| + 2);
    var d2 := StartFilters(d1, stage, buffer, |filters|, first, rej, true, 1);
    var out := Accepts(first, first + 2, |filters|);
    assert forall x <- d2.open :: x == out || x in d2.open - {out};
    d' := Go(d2, stage, Goroutine(Sink, rej, {}, None), {}, {}, |filters| + 2);
  }

  /** The input, which the closes of both channels wait for. */
  lemma StartInput(d: Draft, stage: nat -> nat, buffer: nat, rank: nat) returns (d': Draft)
    requires Sound(d, stage) && d.loose == {} && rank > 0
    ensures Grown(d, d', stage) && d'.net == InputOn(d.net, buffer)
    ensures var first := |d.net.chans|;
            && d'.open == d.open + {first, first + 1} && |d'.net.chans| == first + 2
            && d'.cert.crank[first] == 1 && d'.cert.crank[first + 1] == rank
  {
    hide Wired, Covered, WithChannel, WithGoroutine, Closer;
    var first := |d.net.chans|;
    var d1 := MakeChan(d, stage, buffer, 1);
    var d2 := MakeChan(d1, stage, buffer, rank);
    d' := Go(d2, stage, Goroutine(Input, 0, {first}, None), {first, first + 1}, {}, 0);
  }

  /** The goroutines of a network do not send on a channel that is not there. */
  lemma NoOldSender(d: Draft, stage: nat -> nat, c: nat)
    requires Sound(d, stage) && c >= |d.net.chans|
    ensures forall g :: 0 <= g < |d.net.gs| ==> c !in d.net.gs[g].outs
  {
  }

  /** Relaxing the obligation for one channel. */
  lemma LooseFor(d: Draft, stage: nat -> nat, c: nat)
    requires Sound(d, stage) && d.loose == {}
    ensures Sound(d.(loose := {c}), stage)
  {
    forall g: nat | g < |d.net.gs| ensures GoroutineFits(d.net, d.cert, {c}, stage, g) {
      assert GoroutineFits(d.net, d.cert, {}, stage, g);
    }
  }

  /** The close of the rejects channel waits for the output o, which covers all filters, the only senders. */
  lemma RejectsCovered(d: Draft, stage: nat -> nat, c: nat, g0: nat, n: nat, o: nat)
    requires Sound(d, stage) && d.loose == {c} && c < |d.net.chans| && o < |d.cert.covers|
    requires forall g :: 0 <= g < |d.net.gs| && c in d.net.gs[g].outs ==> g0 <= g < g0 + n
    requires d.cert.covers[o] == Range(g0, n) + {o} && o in Closer(d.net, c)
    ensures Sound(d.(loose := {}), stage)
  {
    forall g: nat | g < |d.net.gs| && c in d.net.gs[g].outs ensures Covered(d.net, d.cert, g, c) {
      InRangeBounds(g0, n, g);
    }
    Tighten(d.net, d.cert, d.open, {c}, stage, c);
    assert {c} - {c} == {};
  }

  lemma AddOutput(d: Draft, stage: nat -> nat, buffer: nat, filters: seq<Filter>, in_: nat, base: nat)
    returns (d': Draft)
    requires Sound(d, stage) && in_ < |d.net.chans| && d.cert.crank[in_] <= base && d.loose == {}
    ensures Grown(d, d', stage) && d'.net == OutputUnit(d.net, filters, in_, buffer) && d'.open <= d.open - {in_}
  {
    OutputBuilt(d.net, filters, in_, buffer);
    NoOldSender(d, stage, |d.net.chans|);
    ChainOf(d.net, |filters|, in_, |d.net.chans|, buffer);
    hide Wired, Covered, WithChannel, WithGoroutine, Closer, FiltersOn, OutputUnit;
    var rej, n := |d.net.chans|, |filters|;
    var d2 := MakeTwo(d, stage, buffer, base + n + 1);
    LooseFor(d2, stage, rej);
    var d3 := StartFilters(d2.(loose := {rej}), stage, buffer, n, in_, rej, false, base);
    var input := Accepts(in_, rej + 2, n);
    assert forall x <- d3.open :: x == input || x in d3.open - {input};
    d' := StartOutput(d3, stage, input, rej, |d.net.gs|, n, base);
  }

  lemma MakeTwo(d: Draft, stage: nat -> nat, buffer: nat, rank: nat) returns (d': Draft)
    requires Sound(d, stage) && d.loose == {}
    ensures Sound(d', stage)
    ensures d' == Draft(TwoChans(d.net, buffer), d.cert.(crank := d.cert.crank + [rank] + [rank]),
                        d.open + {|d.net.chans|} + {|d.net.chans| + 1}, {})
  {
    hide Wired;
    var d1 := MakeChan(d, stage, buffer, rank);
    d' := MakeChan(d1, stage, buffer, rank);
  }

  /** The output plugin, which the closes of both channels wait for, and their two consumers. */
  lemma StartOutput(d: Draft, stage: nat -> nat, input: nat, rej: nat, g0: nat, n: nat, base: nat)
    returns (d': Draft)
    requires Sound(d, stage) && d.loose == {rej} && input < |d.net.chans| && rej + 1 < |d.net.chans|
    requires d.cert.crank[input] <= base + n && d.cert.crank[rej] == d.cert.crank[rej + 1] == base + n + 1
    requires |d.net.gs| == g0 + n
    requires forall g :: 0 <= g < |d.net.gs| && rej in d.net.gs[g].outs ==> g0 <= g < g0 + n
    requires forall x <- Range(g0, n) :: x < |d.net.gs| && Covered(d.net, d.cert, x, input)
    ensures Sound(d', stage) && d'.loose == {} && d'.cert.crank == d.cert.crank
            && d'.open == d.open - {input, rej, rej + 1}
    ensures var o := Goroutine(Plugin, input, {rej + 1}, None);
            d'.net == WithGoroutine(WithGoroutine(WithGoroutine(d.net, o, {rej, rej + 1}),
                                                  Goroutine(Sink, rej, {}, None), {}),
                                    Goroutine(Sink, rej + 1, {}, None), {})
  {
    hide Wired, Covered, WithChannel, WithGoroutine, Closer;
    var d1 := Go(d, stage, Goroutine(Plugin, input, {rej + 1}, None), {rej, rej + 1}, Range(g0, n), base + n);
    RejectsCovered(d1, stage, rej, g0, n, |d.net.gs|);
    var d2 := Go(d1.(loose := {}), stage, Goroutine(Sink, rej, {}, None), {}, {}, base + n + 1);
    d' := Go(d2, stage, Goroutine(Sink, rej + 1, {}, None), {}, {}, base + n + 1);
  }

  lemma {:induction false} AddWorkers(d: Draft, stage: nat -> nat, buffer: nat, ins: seq<nat>, i: nat, base: nat)
    returns (d': Draft)
    requires Sound(d, stage) && d.loose == {} && i <= |ins|
    requires forall j :: 0 <= j < |ins| ==> ins[j] < |d.net.chans| && d.cert.crank[ins[j]] <= base
    ensures Grown(d, d', stage) && d'.net == FanInUnit(d.net, ins[..i], buffer)
    ensures d'.cert.crank == d.cert.crank + [base + 1]
    ensures d'.open <= d.open - (set c | c in ins[..i]) + {|d.net.chans|}
  {
    hide Wired, Covered, WithChannel, WithGoroutine, Closer, FanInUnit;
    if i == 0 {
      NoWorkers(d.net, buffer);
      d' := MakeChan(d, stage, buffer, base + 1);
    } else {
      var d1 := AddWorkers(d, stage, buffer, ins, i - 1, base);
      MoreWorkers(d.net, ins, i - 1, buffer);
      d' := Go(d1, stage, Goroutine(Plugin, ins[i - 1], {|d.net.chans|}, None), {|d.net.chans|}, {}, base);
      assert ins[..i] == ins[..i - 1] + [ins[i - 1]];
    }
  }

  lemma AddFanIn(d: Draft, stage: nat -> nat, buffer: nat, ins: seq<nat>, base: nat) returns (d': Draft)
    requires Sound(d, stage) && d.loose == {}
    requires forall j :: 0 <= j < |ins| ==> ins[j] < |d.net.chans| && d.cert.crank[ins[j]] <= base
    ensures Grown(d, d', stage) && d'.net == FanInUnit(d.net, ins, buffer)
    ensures d'.cert.crank == d.cert.crank + [base + 1]
    ensures d'.open <= d.open - (set c | c in ins) + {|d.net.chans|}
  {
    assert ins[..|ins|] == ins;
    d' := AddWorkers(d, stage, buffer, ins, |ins|, base);
  }

  lemma {:induction false} MakeChans(d: Draft, stage: nat -> nat, buffer: nat, count: nat, rank: nat)
    returns (d': Draft)
    requires Sound(d, stage) && d.loose == {}
    ensures Grown(d, d', stage) && d'.net == OutsMade(d.net, count, buffer)
    ensures |d'.net.chans| == |d.net.chans| + count
    ensures forall i :: |d.net.chans| <= i < |d'.net.chans| ==> d'.cert.crank[i] == rank
    ensures d'.open == d.open + Range(|d.net.chans|, count)
  {
    hide Wired, WithChannel, OutsMade;
    if count == 0 {
      MoreOuts(d.net, 0, buffer);
      d' := d;
    } else {
      var d1 := MakeChans(d, stage, buffer, count - 1, rank);
      MoreOuts(d.net, count - 1, buffer);
      d' := MakeChan(d1, stage, buffer, rank);
    }
  }

  lemma AddFanOut(d: Draft, stage: nat -> nat, buffer: nat, in_: nat, count: nat, base: nat) returns (d': Draft)
    requires Sound(d, stage) && d.loose == {} && in_ < |d.net.chans| && d.cert.crank[in_] <= base && count >= 1
    ensures Grown(d, d', stage) && d'.net == FanOutUnit(d.net, in_, count, buffer)
    ensures |d'.net.chans| == |d.net.chans| + count
    ensures forall i :: |d.net.chans| <= i < |d'.net.chans| ==> d'.cert.crank[i] == base + 1
    ensures d'.open <= d.open - {in_} + Range(|d.net.chans|, count)
  {
    hide Wired, Covered, WithChannel, WithGoroutine, Closer, OutsMade, FanOutUnit;
    var first := |d.net.chans|;
    var d1 := MakeChans(d, stage, buffer, count, base + 1);
    FanOutBuilt(d.net, in_, count, buffer);
    forall x: nat ensures x in Range(first, count) <==> first <= x < first + count {
      InRangeBounds(first, count, x);
    }
    assert first in Range(first, count);
    d' := Go(d1, stage, Goroutine(Plugin, in_, Range(first, count), None), Range(first, count), {}, base);
  }

  // ---- The whole graph ----

  function LongestChain(units: seq<seq<Filter>>): (n: nat)
    ensures forall i :: 0 <= i < |units| ==> |units[i]| <= n
  {
    if units == [] then 0
    else
      var front, last := LongestChain(units[..|units| - 1]), |units[|units| - 1]|;
      if front <= last then last else front
  }

  function FirstStage(cfg: Config): nat {
    LongestChain(cfg.inputs) + 2
  }

  /** The rank of the first goroutine of the k-th processor unit of every line, from the rank of the first. */
  function StageBase(processors: seq<Processor>, k: nat, first: nat): nat
    requires k <= |processors|
  {
    if k == 0 then first else StageBase(processors, k - 1, first) + |processors[k - 1].filters| + 3
  }

  /** The common rank of the k-th processors of all lines. */
  function StageRank(cfg: Config): nat -> nat {
    (k: nat) => if k < |cfg.processors|
                then StageBase(cfg.processors, k, FirstStage(cfg)) + |cfg.processors[k].filters| else 0
  }

  lemma {:induction false} AddInputs(d: Draft, stage: nat -> nat, buffer: nat, inputs: seq<seq<Filter>>, i: nat,
                                     longest: nat)
    returns (d': Draft)
    requires Sound(d, stage) && d.loose == {} && d.open == {} && i <= |inputs|
    requires forall j :: 0 <= j < |inputs| ==> |inputs[j]| <= longest
    ensures Grown(d, d', stage) && d'.net == InputUnits(d.net, inputs[..i], buffer)
    ensures var outs := InputOuts(d.net, inputs[..i], buffer);
            && d'.open <= (set c | c in outs)
            && forall j :: 0 <= j < i ==> outs[j] < |d'.net.chans| && d'.cert.crank[outs[j]] <= longest + 1
  {
    hide Wired, InputUnit, InputOut, InputUnits, InputOuts;
    if i == 0 {
      NoInputs(d.net, inputs, buffer);
      d' := d;
    } else {
      var d1 := AddInputs(d, stage, buffer, inputs, i - 1, longest);
      InputsStep(d.net, inputs, i - 1, buffer);
      d' := AddInput(d1, stage, buffer, inputs[i - 1]);
      var before, outs := InputOuts(d.net, inputs[..i - 1], buffer), InputOuts(d.net, inputs[..i], buffer);
      assert forall c :: c in outs <==> c in before || c == outs[i - 1];
    }
  }

  lemma NoInputs(net: Net, inputs: seq<seq<Filter>>, buffer: nat)
    ensures InputUnits(net, inputs[..0], buffer) == net && InputOuts(net, inputs[..0], buffer) == []
  {
  }

  lemma {:induction false} AddLine(d: Draft, cfg: Config, in_: nat, k: nat) returns (d': Draft)
    requires Sound(d, StageRank(cfg)) && d.loose == {} && in_ < |d.net.chans| && k <= |cfg.processors|
    requires d.cert.crank[in_] <= FirstStage(cfg)
    ensures Grown(d, d', StageRank(cfg)) && d'.net == LineUnits(d.net, cfg.processors[..k], in_, cfg.buffer)
    ensures var out := LineOut(d.net, cfg.processors[..k], in_, cfg.buffer);
            && out < |d'.net.chans| && d'.cert.crank[out] <= StageBase(cfg.processors, k, FirstStage(cfg))
            && (k > 0 ==> d'.cert.crank[out] == StageBase(cfg.processors, k, FirstStage(cfg)))
            && if k == 0 then out == in_ && d'.open == d.open else d'.open <= d.open - {in_} + {out}
  {
    hide Wired, ProcessorUnit, LineUnits, LineOut, FirstStage;
    if k == 0 {
      NoLine(d.net, cfg.processors, in_, cfg.buffer);
      d' := d;
    } else {
      var d1 := AddLine(d, cfg, in_, k - 1);
      LineStep(d.net, cfg.processors, k - 1, in_, cfg.buffer);
      d' := AddProcessor(d1, StageRank(cfg), cfg.buffer, cfg.processors[k - 1].filters,
                         LineOut(d.net, cfg.processors[..k - 1], in_, cfg.buffer),
                         if cfg.processors[k - 1].mixer then Some(k - 1) else None,
                         StageBase(cfg.processors, k - 1, FirstStage(cfg)));
    }
  }

  lemma NoLine(net: Net, processors: seq<Processor>, in_: nat, buffer: nat)
    ensures LineUnits(net, processors[..0], in_, buffer) == net && LineOut(net, processors[..0], in_, buffer) == in_
  {
  }

  lemma {:induction false} AddLines(d: Draft, cfg: Config, in_: nat, l: nat) returns (d': Draft)
    requires Sound(d, StageRank(cfg)) && d.loose == {} && d.open <= {in_} && in_ < |d.net.chans|
    requires d.cert.crank[in_] <= FirstStage(cfg) && cfg.processors != []
    ensures Grown(d, d', StageRank(cfg)) && d'.net == Lines(d.net, cfg.processors, l, in_, cfg.buffer)
    ensures var outs := LineOuts(d.net, cfg.processors, l, in_, cfg.buffer);
            && d'.open <= (if l == 0 then {in_} else {}) + (set c | c in outs)
            && forall i :: 0 <= i < l ==>
                 && outs[i] < |d'.net.chans|
                 && d'.cert.crank[outs[i]] == StageBase(cfg.processors, |cfg.processors|, FirstStage(cfg))
  {
    hide Wired, LineUnits, LineOut, StageBase, FirstStage;
    if l == 0 {
      d' := d;
    } else {
      var d1 := AddLines(d, cfg, in_, l - 1);
      assert cfg.processors[..|cfg.processors|] == cfg.processors;
      d' := AddLine(d1, cfg, in_, |cfg.processors|);
      var before := LineOuts(d.net, cfg.processors, l - 1, in_, cfg.buffer);
      var outs := LineOuts(d.net, cfg.processors, l, in_, cfg.buffer);
      assert forall c :: c in outs <==> c in before || c == outs[l - 1];
    }
  }

  lemma {:induction false} AddOutputs(d: Draft, stage: nat -> nat, buffer: nat, outputs: seq<seq<Filter>>, ins: nat,
                                      i: nat, base: nat)
    returns (d': Draft)
    requires Sound(d, stage) && d.loose == {} && i <= |outputs| && ins + |outputs| <= |d.net.chans|
    requires d.open <= Range(ins, |outputs|)
    requires forall c :: ins <= c < ins + |outputs| ==> d.cert.crank[c] <= base
    ensures Grown(d, d', stage) && d'.net == OutputUnits(d.net, outputs[..i], ins, buffer)
    ensures forall c <- d'.open :: ins + i <= c < ins + |outputs|
  {
    hide Wired, OutputUnit, OutputUnits;
    if i == 0 {
      forall c <- d.open ensures ins <= c < ins + |outputs| {
        InRangeBounds(ins, |outputs|, c);
      }
      NoOutputs(d.net, outputs, ins, buffer);
      d' := d;
    } else {
      var d1 := AddOutputs(d, stage, buffer, outputs, ins, i - 1, base);
      OutputsStep(d.net, outputs, i - 1, ins, buffer);
      d' := AddOutput(d1, stage, buffer, outputs[i - 1], ins + i - 1, base);
    }
  }

  lemma NoOutputs(net: Net, outputs: seq<seq<Filter>>, ins: nat, buffer: nat)
    ensures OutputUnits(net, outputs[..0], ins, buffer) == net
  {
  }

  /** The last channel of a draft is the only one that may be unread. */
  ghost predicate Ready(d: Draft, cfg: Config) {
    && Sound(d, StageRank(cfg)) && d.loose == {} && d.net.chans != [] && d.open <= {|d.net.chans| - 1}
  }

  lemma AddFront(cfg: Config, copies: nat) returns (d: Draft)
    ensures Ready(d, cfg) && d.net == Front(Net([], [], copies), cfg)
    ensures d.cert.crank[|d.net.chans| - 1] == FirstStage(cfg)
  {
    var d0 := Draft(Net([], [], copies), Certificate([], [], []), {}, {});
    assert Sound(d0, StageRank(cfg));
    hide Wired, InputUnits, InputOuts, FanInUnit, LongestChain, StageRank;
    assert cfg.inputs[..|cfg.inputs|] == cfg.inputs;
    var d1 := AddInputs(d0, StageRank(cfg), cfg.buffer, cfg.inputs, |cfg.inputs|, LongestChain(cfg.inputs));
    d := Join(d1, cfg, InputOuts(d0.net, cfg.inputs, cfg.buffer), LongestChain(cfg.inputs) + 1);
  }

  /** A fan-in of all channels that nobody reads yet. */
  lemma Join(d: Draft, cfg: Config, outs: seq<nat>, base: nat) returns (d': Draft)
    requires Sound(d, StageRank(cfg)) && d.loose == {} && d.open <= set c | c in outs
    requires forall j :: 0 <= j < |outs| ==> outs[j] < |d.net.chans| && d.cert.crank[outs[j]] <= base
    ensures Ready(d', cfg) && d'.net == FanInUnit(d.net, outs, cfg.buffer)
    ensures d'.cert.crank == d.cert.crank + [base + 1]
  {
    hide Wired, FanInUnit, StageRank;
    d' := AddFanIn(d, StageRank(cfg), cfg.buffer, outs, base);
  }

  lemma AddMiddle(d: Draft, cfg: Config) returns (d': Draft)
    requires Ready(d, cfg) && d.cert.crank[|d.net.chans| - 1] == FirstStage(cfg) && cfg.lines >= 1
    ensures Ready(d', cfg) && d'.net == Middle(d.net, cfg)
  {
    if cfg.processors == [] {
      d' := d;
    } else {
      hide Wired, Lines, LineOuts, FanInUnit, StageRank, StageBase, FirstStage;
      var in_ := |d.net.chans| - 1;
      var d1 := AllLines(d, cfg, in_);
      d' := Join(d1, cfg, LineOuts(d.net, cfg.processors, cfg.lines, in_, cfg.buffer),
                 StageBase(cfg.processors, |cfg.processors|, FirstStage(cfg)));
    }
  }

  lemma AllLines(d: Draft, cfg: Config, in_: nat) returns (d': Draft)
    requires Sound(d, StageRank(cfg)) && d.loose == {} && d.open <= {in_} && in_ < |d.net.chans|
    requires d.cert.crank[in_] <= FirstStage(cfg) && cfg.processors != [] && cfg.lines >= 1
    ensures Grown(d, d', StageRank(cfg)) && d'.net == Lines(d.net, cfg.processors, cfg.lines, in_, cfg.buffer)
    ensures var outs := LineOuts(d.net, cfg.processors, cfg.lines, in_, cfg.buffer);
            && d'.open <= (set c | c in outs)
            && forall i :: 0 <= i < |outs| ==>
                 && outs[i] < |d'.net.chans|
                 && d'.cert.crank[outs[i]] == StageBase(cfg.processors, |cfg.processors|, FirstStage(cfg))
  {
    hide Wired, Lines, LineOuts, StageRank, StageBase, FirstStage;
    d' := AddLines(d, cfg, in_, cfg.lines);
  }

  lemma AddBack(d: Draft, cfg: Config) returns (d': Draft)
    requires Ready(d, cfg) && cfg.outputs != []
    ensures Sound(d', StageRank(cfg)) && d'.loose == {} && d'.open == {} && d'.net == Back(d.net, cfg)
  {
    hide Wired, FanOutUnit, OutputUnits, StageRank;
    var n := |d.net.chans|;
    var base := d.cert.crank[n - 1];
    var d1 := AddFanOut(d, StageRank(cfg), cfg.buffer, n - 1, |cfg.outputs|, base);
    assert cfg.outputs[..|cfg.outputs|] == cfg.outputs;
    d' := AddOutputs(d1, StageRank(cfg), cfg.buffer, cfg.outputs, n, |cfg.outputs|, base + 1);
  }

  /** Every configuration with an output and a line: any inputs, any filters, any processors and mixers, any buffer. */
  lemma ShapeIsCertified(cfg: Config, copies: nat) returns (cert: Certificate)
    requires cfg.outputs != [] && cfg.lines >= 1
    ensures Certified(Shape(cfg, copies), cert)
  {
    hide Wired, Certified, Front, Middle, Back, FirstStage, StageRank;
    var d1 := AddFront(cfg, copies);
    var d2 := AddMiddle(d1, cfg);
    var d3 := AddBack(d2, cfg);
    WiredIsCertified(d3.net, d3.cert, StageRank(cfg));
    cert := d3.cert;
  }

  // ---- One unit on its own, between a source of events and a consumer of its output ----

  /** A source of events that sends on channel 0. */
  function Source(buffer: nat, copies: nat): Net {
    Net([Goroutine(Input, 0, {0}, None)], [Closing(buffer, {0})], copies)
  }

  function Consumed(net: Net, c: nat): Net {
    net.(gs := net.gs + [Goroutine(Sink, c, {}, None)])
  }

  function Empty(copies: nat): Net {
    Net([], [], copies)
  }

  lemma NewDraft(copies: nat, stage: nat -> nat) returns (d: Draft)
    ensures Sound(d, stage) && d == Draft(Empty(copies), Certificate([], [], []), {}, {})
  {
    d := Draft(Empty(copies), Certificate([], [], []), {}, {});
  }

  lemma NewSource(buffer: nat, copies: nat, stage: nat -> nat) returns (d: Draft)
    ensures Sound(d, stage) && d.net == Source(buffer, copies) && d.loose == {} && d.open == {0} && d.cert.crank == [1]
  {
    var d0 := NewDraft(copies, stage);
    var d1 := MakeChan(d0, stage, buffer, 1);
    hide Wired;
    d := Go(d1, stage, Goroutine(Input, 0, {0}, None), {0}, {}, 0);
    assert {} + {0} == {0};
    assert d.net.chans == [Closing(buffer, {0})];
  }

  lemma Consume(d: Draft, stage: nat -> nat, c: nat) returns (cert: Certificate)
    requires Sound(d, stage) && d.loose == {} && d.open <= {c} && c < |d.net.chans|
    ensures Certified(Consumed(d.net, c), cert)
  {
    hide Wired, Certified;
    NoWaits(d.net, Goroutine(Sink, c, {}, None));
    var d' := Go(d, stage, Goroutine(Sink, c, {}, None), {}, {}, d.cert.crank[c]);
    assert d'.open == {};
    WiredIsCertified(d'.net, d'.cert, stage);
    cert := d'.cert;
  }

  lemma LoneInput(filters: seq<Filter>, buffer: nat, copies: nat) returns (cert: Certificate)
    ensures Certified(Consumed(InputUnit(Empty(copies), filters, buffer), InputOut(Empty(copies), filters)), cert)
  {
    hide Wired, Certified, InputUnit, InputOut, Consumed;
    var stage := (_: nat) => 0;
    var d0 := NewDraft(copies, stage);
    var d := AddInput(d0, stage, buffer, filters);
    cert := Consume(d, stage, InputOut(Empty(copies), filters));
  }

  lemma LoneProcessor(filters: seq<Filter>, buffer: nat, copies: nat) returns (cert: Certificate)
    ensures Certified(Consumed(ProcessorUnit(Source(buffer, copies), filters, 0, None, buffer), 1), cert)
  {
    var stage := (_: nat) => 0;
    var d0 := NewSource(buffer, copies, stage);
    hide Wired, Certified, ProcessorUnit, Consumed;
    var d := AddProcessor(d0, stage, buffer, filters, 0, None, 1);
    cert := Consume(d, stage, 1);
  }

  lemma LoneOutput(filters: seq<Filter>, buffer: nat, copies: nat) returns (cert: Certificate)
    ensures Certified(OutputUnit(Source(buffer, copies), filters, 0, buffer), cert)
  {
    var stage := (_: nat) => 0;
    var d0 := NewSource(buffer, copies, stage);
    hide Wired, Certified, OutputUnit;
    var d := AddOutput(d0, stage, buffer, filters, 0, 1);
    assert d.open == {};
    WiredIsCertified(d.net, d.cert, stage);
    cert := d.cert;
  }

  // ---- All runs of a pipeline ----

  /** The pipeline of any configuration with an output and a line, in any run: nothing panics and every duty is the
      number of copies in flight; once Stopped, all channels are empty, every event and copy that ever existed was
      finished exactly once and every hook has run once. After the stop signal the run can always be continued to
      Stopped, and cannot come to rest anywhere else; and without further emissions it has no more steps left than
      one number tells that is known from each of its states. */
  lemma PipelineDelivers(cfg: Config, copies: nat, trace: seq<State>, steps: seq<Step>)
    returns (cert: Certificate, trace': seq<State>, steps': seq<Step>)
    requires cfg.outputs != [] && cfg.lines >= 1
    requires Run(Shape(cfg, copies), trace, steps)
    ensures var s := trace[|steps|];
            && !s.panicked
            && (forall t: nat :: t < |s.duty| ==> s.duty[t] == InFlight(s, OfTracker(t)))
            && (s.phase.Stopped? ==>
                  && (forall c :: 0 <= c < |s.queues| ==> s.queues[c] == [])
                  && multiset(s.minted) == multiset(s.finished)
                  && forall t: nat :: t < |s.duty| ==> s.duty[t] == 0 && s.fired[t] == 1)
            && (!s.phase.Running? ==>
                  && Run(Shape(cfg, copies), trace', steps') && trace <= trace' && steps <= steps'
                  && trace'[|steps'|].phase.Stopped?)
            && (!s.phase.Running? && (forall st: Step :: Enabled(Shape(cfg, copies), s, st) ==> st.Emit?) ==>
                  s.phase.Stopped?)
    ensures Certified(Shape(cfg, copies), cert)
    ensures forall k: nat :: k <= |steps| && (forall j :: k <= j < |steps| ==> !steps[j].Emit?) ==>
              |steps| - k <= Measure(Shape(cfg, copies), cert, trace[k])
  {
    var net := Shape(cfg, copies);
    cert := ShapeIsCertified(cfg, copies);
    hide Certified, Shape, InFlight;
    InTrace(net, cert, trace, steps);
    NeverPanics(net, cert, trace, steps, |steps|);
    trace', steps' := trace, steps;
    var s := trace[|steps|];
    if s.phase.Stopped? {
      StoppedIsComplete(net, cert, trace, steps, |steps|);
    }
    if !s.phase.Running? {
      trace', steps' := Stops(net, cert, trace, steps);
      if forall st: Step :: Enabled(net, s, st) ==> st.Emit? {
        OnlyStoppedRests(net, cert, trace, steps);
      }
    }
    forall k: nat | k <= |steps| && (forall j :: k <= j < |steps| ==> !steps[j].Emit?)
      ensures |steps| - k <= Measure(net, cert, trace[k])
    {
      RunsEnd(net, cert, trace, steps, k);
    }
  }
}
