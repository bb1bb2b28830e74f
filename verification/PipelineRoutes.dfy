/** Every input reaches every output through every line: the graph of every configuration is connected the way it is
    meant to be. */
module PipelineRoutes {
  import opened Options
  import opened Graph
  import opened Topology
  import opened Certification
  import opened GraphRoutes
  import opened PipelineGrowth
  import opened PipelineLayout
  import opened PipelinePlaces

  lemma FilterFeeds(net: Net, g: nat, n: nat, in_: nat, rejects: nat, next: nat, buffer: nat, x: nat)
    requires FiltersAt(net, g, n, in_, rejects, next, buffer) && g <= x < g + n
    requires g + n < |net.gs| && !net.gs[g + n].kind.Input? && net.gs[g + n].input == Behind(n, in_, next)
    ensures FeedsNext(net, x)
  {
    assert Feeds(net, x, next + (x - g), x + 1);
  }

  /** Filters feed one another, and the last one the plugin behind them. */
  lemma FiltersChained(net: Net, g: nat, n: nat, in_: nat, rejects: nat, next: nat, buffer: nat)
    requires FiltersAt(net, g, n, in_, rejects, next, buffer)
    requires g + n < |net.gs| && !net.gs[g + n].kind.Input? && net.gs[g + n].input == Behind(n, in_, next)
    ensures Chained(net, g, n) && Reads(net, g, in_)
  {
    forall x: nat | g <= x < g + n ensures FeedsNext(net, x) {
      FilterFeeds(net, g, n, in_, rejects, next, buffer, x);
    }
  }

  lemma InputSends(net: Net, g: nat, own: nat, n: nat, buffer: nat)
    requires InputAt(net, g, own, n, buffer)
    ensures Chained(net, g, n) && g + n < |net.gs| && net.gs[g].kind.Input? && !net.gs[g + n].kind.Sink?
    ensures (if n == 0 then own else own + n + 1) in net.gs[g + n].outs
  {
    forall x: nat | g <= x < g + n ensures FeedsNext(net, x) {
      assert Feeds(net, x, if x == g then own else own + 1 + (x - g), x + 1);
    }
  }

  /** The input unit sends to its goroutine of the fan-in. */
  lemma InputChained(cfg: Config, copies: nat, i: nat)
    requires i < |cfg.inputs|
    ensures var net, g, n := Shape(cfg, copies), Sizes(cfg.inputs[..i]), |cfg.inputs[i]|;
            && Chained(net, g, n) && g < |net.gs| && net.gs[g].kind.Input?
            && Feeds(net, g + n, InputC(cfg, i), MergedC(cfg) + i)
  {
    hide Shape, Sizes, MergedC, InputAt, Chained;
    var net, g, n := Shape(cfg, copies), Sizes(cfg.inputs[..i]), |cfg.inputs[i]|;
    InputPlace(cfg, copies, i);
    InputSends(net, g, g, n, cfg.buffer);
    assert Reads(net, MergedC(cfg) + i, InputC(cfg, i));
  }

  /** A goroutine of a fan-in sends on its output. */
  lemma WorkerFeeds(net: Net, g: nat, ins: seq<nat>, out: nat, buffer: nat, i: nat, h: nat)
    requires FanInAt(net, g, ins, out, buffer) && i < |ins| && Reads(net, h, out)
    ensures Feeds(net, g + i, out, h)
  {
  }

  lemma UnitSends(net: Net, g: nat, own: nat, n: nat, in_: nat, group: Option<nat>, buffer: nat)
    requires ProcessorAt(net, g, own, n, in_, group, buffer)
    ensures Chained(net, g, n) && Reads(net, g, in_)
    ensures g + n < |net.gs| && !net.gs[g + n].kind.Sink? && own in net.gs[g + n].outs
  {
    FiltersChained(net, g, n, in_, own, own + 2, buffer);
    hide FiltersAt, Chained;
  }

  /** A processor unit reads what comes before it, and sends to the next unit or to its goroutine of the fan-in. */
  lemma UnitChained(cfg: Config, copies: nat, l: nat, k: nat)
    requires l < cfg.lines && k < |cfg.processors|
    ensures var net, g, n := Shape(cfg, copies), UnitG(cfg, l, k), |cfg.processors[k].filters|;
            && Chained(net, g, n) && Reads(net, g, if k == 0 then MergedC(cfg) else UnitC(cfg, l, k - 1))
            && Feeds(net, g + n, UnitC(cfg, l, k),
                     if k + 1 < |cfg.processors| then UnitG(cfg, l, k + 1) else UnitG(cfg, cfg.lines, 0) + l)
  {
    hide Shape, UnitG, UnitC, MergedC, ProcessorAt, Chained;
    var net, g, own, n := Shape(cfg, copies), UnitG(cfg, l, k), UnitC(cfg, l, k), |cfg.processors[k].filters|;
    ProcessorPlace(cfg, copies, l, k);
    UnitSends(net, g, own, n, if k == 0 then MergedC(cfg) else UnitC(cfg, l, k - 1),
              if cfg.processors[k].mixer then Some(k) else None, cfg.buffer);
    assert Reads(net, if k + 1 < |cfg.processors| then UnitG(cfg, l, k + 1) else UnitG(cfg, cfg.lines, 0) + l, own);
  }

  lemma FanOutFeeds(cfg: Config, copies: nat, o: nat)
    requires o < |cfg.outputs|
    ensures var net := Shape(cfg, copies);
            && Feeds(net, FanG(cfg), FanC(cfg) + o, OutputG(cfg, o))
            && Chained(net, OutputG(cfg, o), |cfg.outputs[o]|)
            && Reads(net, FanG(cfg), if cfg.processors == [] then MergedC(cfg) else FanC(cfg) - 1)
  {
    var net := Shape(cfg, copies);
    assert cfg.processors == [] ==> FanC(cfg) - 1 == MergedC(cfg);
    hide Shape, FanG, FanC, OutputG, OutputC, MergedC, Chained, FiltersAt, ClosedBy;
    FanOutPlace(cfg, copies);
    OutputPlace(cfg, copies, o);
    assert Reads(net, FanG(cfg), FanC(cfg) - 1) && Reads(net, OutputG(cfg, o), FanC(cfg) + o);
    hide OnlyReader;
    FiltersChained(net, OutputG(cfg, o), |cfg.outputs[o]|, FanC(cfg) + o, OutputC(cfg, o), OutputC(cfg, o) + 2,
                   cfg.buffer);
  }

  // ---- The event's way ----

  /** At some time g had the event. */
  ghost predicate Passed(trace: seq<State>, g: nat, e: Event) {
    exists t :: 0 <= t < |trace| && g < |trace[t].hands| && trace[t].hands[g] == [e]
  }

  lemma PassedStays(trace: seq<State>, trace': seq<State>, g: nat, e: Event)
    requires Passed(trace, g, e) && trace <= trace'
    ensures Passed(trace', g, e)
  {
    var t :| 0 <= t < |trace| && g < |trace[t].hands| && trace[t].hands[g] == [e];
    assert trace'[t] == trace[t];
  }

  lemma HasPassed(net: Net, trace: seq<State>, steps: seq<Step>, g: nat, e: Event)
    requires Arrives(net, trace, steps, g, e)
    ensures Passed(trace, g, e)
  {
    assert trace[|steps|].hands[g] == [e];
  }

  /** From the input to the channel that all inputs are merged to: into the hands of one of its readers. */
  lemma ThroughInput(cfg: Config, copies: nat, cert: Certificate, i: nat, h: nat)
    returns (trace: seq<State>, steps: seq<Step>)
    requires i < |cfg.inputs| && Certified(Shape(cfg, copies), cert) && Reads(Shape(cfg, copies), h, MergedC(cfg))
    ensures Arrives(Shape(cfg, copies), trace, steps, h, Event(0, Some(0)))
    ensures [Emit(Sizes(cfg.inputs[..i]), true)] <= steps
  {
    hide Shape, Sizes, MergedC, Certified, Arrives, Feeds, Chained, Reads, InputC;
    var net, g, n, e := Shape(cfg, copies), Sizes(cfg.inputs[..i]), |cfg.inputs[i]|, Event(0, Some(0));
    InputChained(cfg, copies, i);
    MergePlace(cfg, copies);
    WorkerFeeds(net, MergedC(cfg), InputCs(cfg), MergedC(cfg), cfg.buffer, i, h);
    trace, steps := Emits(net, cert, g);
    trace, steps := Along(net, cert, trace, steps, g, n, e);
    trace, steps := Hop(net, cert, trace, steps, g + n, InputC(cfg, i), MergedC(cfg) + i, e);
    trace, steps := Hop(net, cert, trace, steps, MergedC(cfg) + i, MergedC(cfg), h, e);
  }

  /** What the k-th unit of a line, or what is behind the line, is entered by. */
  function EnteredBy(cfg: Config, l: nat, k: nat): nat
    requires k <= |cfg.processors|
  {
    if k < |cfg.processors| then UnitG(cfg, l, k) else UnitG(cfg, cfg.lines, 0) + l
  }

  /** Through the first k units of a line. */
  lemma {:induction false} ThroughLine(cfg: Config, copies: nat, cert: Certificate, trace: seq<State>,
                                       steps: seq<Step>, l: nat, k: nat, e: Event)
    returns (trace': seq<State>, steps': seq<Step>)
    requires l < cfg.lines && k <= |cfg.processors| && cfg.processors != [] && Certified(Shape(cfg, copies), cert)
    requires Arrives(Shape(cfg, copies), trace, steps, UnitG(cfg, l, 0), e)
    ensures Arrives(Shape(cfg, copies), trace', steps', EnteredBy(cfg, l, k), e)
    ensures trace <= trace' && steps <= steps'
    ensures forall j :: 0 <= j < k ==> Passed(trace', UnitG(cfg, l, j) + |cfg.processors[j].filters|, e)
  {
    hide Shape, UnitG, UnitC, MergedC, Certified, Arrives, Feeds, Chained, Reads, Passed;
    trace', steps' := trace, steps;
    if k > 0 {
      var net, g, n := Shape(cfg, copies), UnitG(cfg, l, k - 1), |cfg.processors[k - 1].filters|;
      trace', steps' := ThroughLine(cfg, copies, cert, trace, steps, l, k - 1, e);
      ghost var before := trace';
      UnitChained(cfg, copies, l, k - 1);
      trace', steps' := Along(net, cert, trace', steps', g, n, e);
      HasPassed(net, trace', steps', g + n, e);
      ghost var there := trace';
      trace', steps' := Hop(net, cert, trace', steps', g + n, UnitC(cfg, l, k - 1), EnteredBy(cfg, l, k), e);
      PassedStays(there, trace', g + n, e);
      forall j | 0 <= j < k - 1 ensures Passed(trace', UnitG(cfg, l, j) + |cfg.processors[j].filters|, e) {
        PassedStays(before, trace', UnitG(cfg, l, j) + |cfg.processors[j].filters|, e);
      }
    }
  }

  /** From the fan-out to the o-th output. */
  lemma ThroughOutput(cfg: Config, copies: nat, cert: Certificate, trace: seq<State>, steps: seq<Step>, o: nat,
                      e: Event)
    returns (trace': seq<State>, steps': seq<Step>)
    requires o < |cfg.outputs| && Certified(Shape(cfg, copies), cert)
    requires Arrives(Shape(cfg, copies), trace, steps, FanG(cfg), e)
    ensures Arrives(Shape(cfg, copies), trace', steps', OutputG(cfg, o) + |cfg.outputs[o]|, e)
    ensures trace <= trace' && steps <= steps'
  {
    hide Shape, FanG, FanC, OutputG, Certified, Arrives, Feeds, Chained;
    FanOutFeeds(cfg, copies, o);
    trace', steps' := Hop(Shape(cfg, copies), cert, trace, steps, FanG(cfg), FanC(cfg) + o, OutputG(cfg, o), e);
    trace', steps' := Along(Shape(cfg, copies), cert, trace', steps', OutputG(cfg, o), |cfg.outputs[o]|, e);
  }

  /** From an input through a line and the fan-in behind the lines to the fan-out. */
  lemma ThroughMiddle(cfg: Config, copies: nat, cert: Certificate, i: nat, l: nat)
    returns (trace: seq<State>, steps: seq<Step>)
    requires i < |cfg.inputs| && l < cfg.lines && cfg.processors != [] && cfg.outputs != []
    requires Certified(Shape(cfg, copies), cert)
    ensures Arrives(Shape(cfg, copies), trace, steps, FanG(cfg), Event(0, Some(0)))
    ensures [Emit(Sizes(cfg.inputs[..i]), true)] <= steps
    ensures forall k :: 0 <= k < |cfg.processors| ==>
              Passed(trace, UnitG(cfg, l, k) + |cfg.processors[k].filters|, Event(0, Some(0)))
  {
    hide Shape, FanG, FanC, UnitG, UnitC, MergedC, Sizes, Certified, Arrives, Feeds, Chained, Reads, Passed, LineCs;
    var net, e := Shape(cfg, copies), Event(0, Some(0));
    UnitChained(cfg, copies, l, 0);
    trace, steps := ThroughInput(cfg, copies, cert, i, UnitG(cfg, l, 0));
    trace, steps := ThroughLine(cfg, copies, cert, trace, steps, l, |cfg.processors|, e);
    ghost var line := trace;
    JoinPlace(cfg, copies);
    FanOutFeeds(cfg, copies, 0);
    WorkerFeeds(net, UnitG(cfg, cfg.lines, 0), LineCs(cfg), FanC(cfg) - 1, cfg.buffer, l, FanG(cfg));
    trace, steps := Hop(net, cert, trace, steps, UnitG(cfg, cfg.lines, 0) + l, FanC(cfg) - 1, FanG(cfg), e);
    forall k | 0 <= k < |cfg.processors| ensures Passed(trace, UnitG(cfg, l, k) + |cfg.processors[k].filters|, e) {
      PassedStays(line, trace, UnitG(cfg, l, k) + |cfg.processors[k].filters|, e);
    }
  }

  /** For every configuration, every input, line and output: there is a run in which an event that the input emits goes
      through every processor of the line and is received by the output. */
  lemma EventsGetThrough(cfg: Config, copies: nat, i: nat, l: nat, o: nat)
    returns (trace: seq<State>, steps: seq<Step>)
    requires i < |cfg.inputs| && l < cfg.lines && o < |cfg.outputs|
    ensures Run(Shape(cfg, copies), trace, steps) && [Emit(Sizes(cfg.inputs[..i]), true)] <= steps
    ensures forall k :: 0 <= k < |cfg.processors| ==>
              Passed(trace, UnitG(cfg, l, k) + |cfg.processors[k].filters|, Event(0, Some(0)))
    ensures var output := OutputG(cfg, o) + |cfg.outputs[o]|;
            && output < |trace[|steps|].hands| && trace[|steps|].hands[output] == [Event(0, Some(0))]
  {
    hide Shape, FanG, FanC, UnitG, UnitC, OutputG, MergedC, Sizes, Certified, Feeds, Chained, Reads, Passed, Run;
    var e := Event(0, Some(0));
    var cert := ShapeIsCertified(cfg, copies);
    if cfg.processors == [] {
      FanOutFeeds(cfg, copies, o);
      trace, steps := ThroughInput(cfg, copies, cert, i, FanG(cfg));
    } else {
      trace, steps := ThroughMiddle(cfg, copies, cert, i, l);
    }
    ghost var middle := trace;
    trace, steps := ThroughOutput(cfg, copies, cert, trace, steps, o, e);
    forall k | 0 <= k < |cfg.processors| ensures Passed(trace, UnitG(cfg, l, k) + |cfg.processors[k].filters|, e) {
      PassedStays(middle, trace, UnitG(cfg, l, k) + |cfg.processors[k].filters|, e);
    }
  }
}
