/** Pipeline.Run up to its Running state (pipeline/pipeline.go), with the constructors and Run methods of the soft
    units (core/unit/soft.go): channels are made and goroutines started one by one. */
module Pipeline {
  import opened Options
  import opened Graph
  import opened Wiring
  import opened Topology

  class GraphBuilder {
    var net: Net
    const buffer: nat

    constructor (buffer: nat, copies: nat)
      ensures net == Net([], [], copies) && this.buffer == buffer
    {
      net := Net([], [], copies);
      this.buffer := buffer;
    }

    /** `make(chan *core.Event, buffer)`. */
    method MakeChan() returns (c: nat)
      modifies this
      ensures c == |old(net).chans| && net == WithChannel(old(net), buffer) && |net.chans| == c + 1
    {
      c := |net.chans|;
      net := WithChannel(net, buffer);
    }

    /** Starts a goroutine; the close statements of the channels of `waits` wait for it. */
    method Go(g: Goroutine, waits: set<nat>)
      modifies this
      ensures net == WithGoroutine(old(net), g, waits) && |net.chans| == |old(net).chans|
    {
      net := WithGoroutine(net, g, waits);
    }

    /** One filter: its accepts channel, closed when the filter has returned, and its goroutine. The unit's wait
        group holds back the close of the rejects channel if `waits`. */
    method AddFilter(f: Filter, input: nat, rejects: nat, waits: bool) returns (accepts: nat)
      modifies this
      ensures net == OneFilter(old(net), input, rejects, waits, buffer) && accepts == |old(net).chans|
    {
      accepts := MakeChan();
      Go(Goroutine(Plugin, input, FilterOuts(f, rejects, accepts), None), {accepts} + if waits then {rejects} else {});
    }

    /** The filters of a unit, in a chain that starts at channel `first`. */
    method StartFilters(filters: seq<Filter>, first: nat, rejects: nat, waits: bool) returns (last: nat)
      requires rejects < |net.chans|
      modifies this
      ensures net == FiltersOn(old(net), |filters|, first, rejects, waits, buffer)
      ensures last == Accepts(first, |old(net).chans|, |filters|)
    {
      hide OneFilter, FiltersOn;
      last := first;
      NoFilters(net, first, rejects, waits, buffer);
      for j := 0 to |filters|
        invariant net == FiltersOn(old(net), j, first, rejects, waits, buffer)
        invariant last == Accepts(first, |old(net).chans|, j)
      {
        MoreFilters(old(net), j, first, rejects, waits, buffer);
        last := AddFilter(filters[j], last, rejects, waits);
      }
    }

    /** newProcessorSoftUnit and procSoftUnit.Run. */
    method NewProcessor(filters: seq<Filter>, in_: nat, group: Option<nat>) returns (out: nat)
      modifies this
      ensures net == ProcessorUnit(old(net), filters, in_, group, buffer) && out == |old(net).chans|
    {
      ProcessorBuilt(net, filters, in_, group, buffer);
      hide FiltersOn, ProcessorUnit, WithChannel, WithGoroutine, Accepts;
      out := MakeChan();
      var drop := MakeChan();
      var input := StartFilters(filters, in_, out, true);
      Go(Goroutine(Plugin, input, if group.Some? then {out} else {out, drop}, group), {out, drop});
      Go(Goroutine(Sink, drop, {}, None), {out});
    }

    /** newInputSoftUnit and inSoftUnit.Run. */
    method NewInput(filters: seq<Filter>) returns (out: nat)
      modifies this
      ensures net == InputUnit(old(net), filters, buffer) && out == InputOut(old(net), filters)
    {
      InputBuilt(net, filters, buffer);
      hide FiltersOn, InputUnit, WithChannel, WithGoroutine, Accepts;
      var first := MakeChan();
      var rej := MakeChan();
      Go(Goroutine(Input, 0, {first}, None), {first, rej});
      out := StartFilters(filters, first, rej, true);
      Go(Goroutine(Sink, rej, {}, None), {});
    }

    /** newOutputSoftUnit and outSoftUnit.Run. */
    method NewOutput(filters: seq<Filter>, in_: nat)
      modifies this
      ensures net == OutputUnit(old(net), filters, in_, buffer)
    {
      OutputBuilt(net, filters, in_, buffer);
      hide FiltersOn, OutputUnit, WithChannel, WithGoroutine, Accepts;
      var rej := MakeChan();
      var done := MakeChan();
      var input := StartFilters(filters, in_, rej, false);
      Go(Goroutine(Plugin, input, {done}, None), {rej, done});
      Go(Goroutine(Sink, rej, {}, None), {});
      Go(Goroutine(Sink, done, {}, None), {});
    }

    /** newFanInSoftUnit, fanInSoftUnit.Run and FanIn.Run. */
    method NewFanIn(ins: seq<nat>) returns (out: nat)
      modifies this
      ensures net == FanInUnit(old(net), ins, buffer) && out == |old(net).chans|
    {
      hide FanInUnit, WithChannel, WithGoroutine;
      NoWorkers(net, buffer);
      out := MakeChan();
      assert ins[..0] == [] && ins[..|ins|] == ins;
      for i := 0 to |ins|
        invariant net == FanInUnit(old(net), ins[..i], buffer)
      {
        MoreWorkers(old(net), ins, i, buffer);
        Go(Goroutine(Plugin, ins[i], {out}, None), {out});
      }
    }

    /** newFanOutSoftUnit, fanOutSoftUnit.Run and FanOut.Run. */
    method NewFanOut(in_: nat, count: nat) returns (outs: seq<nat>)
      modifies this
      ensures net == FanOutUnit(old(net), in_, count, buffer)
      ensures |outs| == count && forall i :: 0 <= i < count ==> outs[i] == |old(net).chans| + i
    {
      hide OutsMade, FanOutUnit, WithChannel, WithGoroutine;
      var all: set<nat> := {};
      outs := [];
      MoreOuts(net, 0, buffer);
      for i := 0 to count
        invariant net == OutsMade(old(net), i, buffer) && |net.chans| == |old(net).chans| + i
        invariant |outs| == i && forall j :: 0 <= j < i ==> outs[j] == |old(net).chans| + j
        invariant all == Range(|old(net).chans|, i)
      {
        MoreOuts(old(net), i, buffer);
        var out := MakeChan();
        outs := outs + [out];
        all := all + {out};
      }
      FanOutBuilt(old(net), in_, count, buffer);
      Go(Goroutine(Plugin, in_, all, None), all);
    }

    method AddInputs(inputs: seq<seq<Filter>>) returns (outs: seq<nat>)
      modifies this
      ensures net == InputUnits(old(net), inputs, buffer) && outs == InputOuts(old(net), inputs, buffer)
    {
      hide InputUnit, InputOut;
      outs := [];
      for i := 0 to |inputs|
        invariant net == InputUnits(old(net), inputs[..i], buffer) && outs == InputOuts(old(net), inputs[..i], buffer)
      {
        InputsStep(old(net), inputs, i, buffer);
        var out := NewInput(inputs[i]);
        outs := outs + [out];
      }
      assert inputs[..|inputs|] == inputs;
    }

    /** One line of processor units, each reading the output of the one before. */
    method AddLine(processors: seq<Processor>, in_: nat) returns (out: nat)
      modifies this
      ensures net == LineUnits(old(net), processors, in_, buffer) && out == LineOut(old(net), processors, in_, buffer)
    {
      hide ProcessorUnit;
      out := in_;
      for k := 0 to |processors|
        invariant net == LineUnits(old(net), processors[..k], in_, buffer)
        invariant out == LineOut(old(net), processors[..k], in_, buffer)
      {
        LineStep(old(net), processors, k, in_, buffer);
        out := NewProcessor(processors[k].filters, out, if processors[k].mixer then Some(k) else None);
      }
      assert processors[..|processors|] == processors;
    }

    method AddLines(cfg: Config, in_: nat) returns (outs: seq<nat>)
      modifies this
      ensures net == Lines(old(net), cfg.processors, cfg.lines, in_, buffer)
      ensures outs == LineOuts(old(net), cfg.processors, cfg.lines, in_, buffer)
    {
      hide LineUnits, LineOut;
      outs := [];
      for l := 0 to cfg.lines
        invariant net == Lines(old(net), cfg.processors, l, in_, buffer)
        invariant outs == LineOuts(old(net), cfg.processors, l, in_, buffer)
      {
        var out := AddLine(cfg.processors, in_);
        outs := outs + [out];
      }
    }

    method AddOutputs(outputs: seq<seq<Filter>>, ins: seq<nat>)
      requires |ins| == |outputs| && forall i :: 0 <= i < |ins| ==> ins[i] == ins[0] + i
      modifies this
      ensures outputs != [] ==> net == OutputUnits(old(net), outputs, ins[0], buffer)
      ensures outputs == [] ==> net == old(net)
    {
      hide OutputUnit;
      for i := 0 to |outputs|
        invariant outputs == [] ==> net == old(net)
        invariant outputs != [] ==> net == OutputUnits(old(net), outputs[..i], ins[0], buffer)
      {
        OutputsStep(old(net), outputs, i, ins[0], buffer);
        NewOutput(outputs[i], ins[i]);
      }
      assert outputs[..|outputs|] == outputs;
    }
  }

  /** Pipeline.Run up to its Running state: the graph of the configuration, with its goroutines, channels and close
      statements. */
  method Build(cfg: Config, copies: nat) returns (net: Net)
    requires cfg.outputs != []
    ensures net == Shape(cfg, copies)
  {
    hide InputUnits, InputOuts, FanInUnit, Lines, LineOuts, FanOutUnit, OutputUnits;
    var b := new GraphBuilder(cfg.buffer, copies);
    var ins := b.AddInputs(cfg.inputs);
    var out := b.NewFanIn(ins);
    LastIsFanIn(InputUnits(Net([], [], copies), cfg.inputs, cfg.buffer), ins, cfg.buffer);
    if cfg.processors != [] {
      ghost var front := b.net;
      var procs := b.AddLines(cfg, out);
      out := b.NewFanIn(procs);
      LastIsFanIn(Lines(front, cfg.processors, cfg.lines, |front.chans| - 1, cfg.buffer), procs, cfg.buffer);
    }
    var outs := b.NewFanOut(out, |cfg.outputs|);
    b.AddOutputs(cfg.outputs, outs);
    net := b.net;
  }

  lemma LastIsFanIn(net: Net, ins: seq<nat>, buffer: nat)
    ensures |FanInUnit(net, ins, buffer).chans| == |net.chans| + 1
  {
  }
}
