/** The graph that Pipeline.Run assembles (pipeline/pipeline.go, core/unit/soft.go): input units, a fan-in,
    lines of processor units, a second fan-in, a fan-out, and output units, each with its chain of filters. For
    every unit: its goroutines, the channels they read and send on, and what the close of each channel waits for.
    Goroutines and channels are numbered in the order of their creation. */
module Topology {
  import opened Options
  import opened Graph
  import opened Wiring

  /** A filter: whether it is reversed, and how many `not` filters wrap it. */
  datatype Filter = Filter(reverse: bool, nots: nat)

  datatype Processor = Processor(filters: seq<Filter>, mixer: bool)

  /** `processors` is one line; `lines` copies of it run in parallel. Every channel has the same buffer. */
  datatype Config = Config(inputs: seq<seq<Filter>>, processors: seq<Processor>, lines: nat,
                           outputs: seq<seq<Filter>>, buffer: nat)

  /** Where a filter sends what it rejects and what it accepts: `BaseFilter.SetChannels` swaps the two when the
      filter is reversed, and every wrapping `Not` swaps them once more. */
  function SetChannels(f: Filter, rejected: nat, accepted: nat): (nat, nat)
    decreases f.nots
  {
    if f.nots > 0 then SetChannels(f.(nots := f.nots - 1), accepted, rejected)
    else if f.reverse then (accepted, rejected)
    else (rejected, accepted)
  }

  /** Accepted events go to the reject channel exactly when the number of swaps is odd. */
  lemma {:induction false} SwapParity(f: Filter, rejected: nat, accepted: nat)
    ensures SetChannels(f, rejected, accepted)
         == if (f.nots + if f.reverse then 1 else 0) % 2 == 0 then (rejected, accepted) else (accepted, rejected)
    decreases f.nots
  {
    if f.nots > 0 {
      SwapParity(f.(nots := f.nots - 1), accepted, rejected);
    }
  }

  function FilterOuts(f: Filter, rejected: nat, accepted: nat): (outs: set<nat>)
    ensures outs == {rejected, accepted}
  {
    SwapParity(f, rejected, accepted);
    var (rej, acc) := SetChannels(f, rejected, accepted);
    {rej, acc}
  }

  /** The n numbers from g on. */
  function Range(g: nat, n: nat): set<nat> {
    if n == 0 then {} else Range(g, n - 1) + {g + n - 1}
  }

  lemma {:induction false} InRangeBounds(g: nat, n: nat, x: nat)
    ensures x in Range(g, n) <==> g <= x < g + n
  {
    if n > 0 {
      InRangeBounds(g, n - 1, x);
    }
  }

  // ---- Units ----

  /** A channel whose one close statement waits for the goroutines of `waits`. */
  function Closing(buffer: nat, waits: set<nat>): Channel {
    Channel(buffer, [waits])
  }

  /** The channel that the n-th filter of a chain sends accepted events to. */
  function Accepts(first: nat, next: nat, n: nat): nat {
    if n == 0 then first else next + n - 1
  }

  /** After `gs`, n filters: each reads what the one before accepts, and sends the rest to `rejects`. */
  function Chain(gs: seq<Goroutine>, n: nat, first: nat, rejects: nat, next: nat): (all: seq<Goroutine>)
    ensures |all| == |gs| + n && all[..|gs|] == gs
  {
    if n == 0 then gs
    else
      var front := Chain(gs, n - 1, first, rejects, next);
      assert front[..|gs|] == gs;
      front + [Goroutine(Plugin, Accepts(first, next, n - 1), {rejects, Accepts(first, next, n)}, None)]
  }

  /** After `chans`, the accepts channels of n filters numbered from g, each closed when its filter has returned. */
  function ChainChans(chans: seq<Channel>, g: nat, n: nat, buffer: nat): (all: seq<Channel>)
    ensures |all| == |chans| + n && forall c :: 0 <= c < |chans| ==> all[c] == chans[c]
    ensures forall c :: |chans| <= c < |all| ==> all[c] == Closing(buffer, {g + c - |chans|})
  {
    if n == 0 then chans else ChainChans(chans, g, n - 1, buffer) + [Closing(buffer, {g + n - 1})]
  }

  /** An input unit. The input and the filters are the goroutines from g on; the first channel is closed when the
      input has returned, the rejects channel when the input and all filters have. What passes the last filter is
      the unit's output; rejected events are only marked as done, by the unit's last goroutine. */
  function InputUnit(net: Net, filters: seq<Filter>, buffer: nat): Net {
    var g, first, n := |net.gs|, |net.chans|, |filters|;
    net.(gs := Chain(net.gs + [Goroutine(Input, 0, {first}, None)], n, first, first + 1, first + 2)
               + [Goroutine(Sink, first + 1, {}, None)],
         chans := ChainChans(net.chans + [Closing(buffer, {g})] + [Closing(buffer, Range(g, n + 1))], g + 1, n, buffer))
  }

  function InputOut(net: Net, filters: seq<Filter>): nat {
    Accepts(|net.chans|, |net.chans| + 2, |filters|)
  }

  /** A processor unit. Filters, processor and the consumer of dropped events are the goroutines from g on. The
      output is closed when all of them have returned, the drop channel when the processor has. Rejected events
      bypass the processor. A mixer does not use the drop channel. */
  function ProcessorUnit(net: Net, filters: seq<Filter>, in_: nat, group: Option<nat>, buffer: nat): Net {
    var g, out, n := |net.gs|, |net.chans|, |filters|;
    net.(gs := Chain(net.gs, n, in_, out, out + 2)
               + [Goroutine(Plugin, Accepts(in_, out + 2, n), if group.Some? then {out} else {out, out + 1}, group)]
               + [Goroutine(Sink, out + 1, {}, None)],
         chans := ChainChans(net.chans + [Closing(buffer, Range(g, n + 2))] + [Closing(buffer, {g + n})], g, n, buffer))
  }

  /** An output unit. The rejects and the done channel are closed when the output has returned; what comes out of
      them is marked as done. */
  function OutputUnit(net: Net, filters: seq<Filter>, in_: nat, buffer: nat): Net {
    var g, rej, n := |net.gs|, |net.chans|, |filters|;
    net.(gs := Chain(net.gs, n, in_, rej, rej + 2)
               + [Goroutine(Plugin, Accepts(in_, rej + 2, n), {rej + 1}, None)]
               + [Goroutine(Sink, rej, {}, None)] + [Goroutine(Sink, rej + 1, {}, None)],
         chans := ChainChans(net.chans + [Closing(buffer, {g + n})] + [Closing(buffer, {g + n})], g, n, buffer))
  }

  function Workers(gs: seq<Goroutine>, ins: seq<nat>, out: nat): seq<Goroutine> {
    if ins == [] then gs else Workers(gs, ins[..|ins| - 1], out) + [Goroutine(Plugin, ins[|ins| - 1], {out}, None)]
  }

  /** A fan-in: one goroutine per input, the output closed when all of them have returned. */
  function FanInUnit(net: Net, ins: seq<nat>, buffer: nat): Net {
    net.(gs := Workers(net.gs, ins, |net.chans|), chans := net.chans + [Closing(buffer, Range(|net.gs|, |ins|))])
  }

  function Alike(chans: seq<Channel>, n: nat, ch: Channel): (all: seq<Channel>)
    ensures |all| == |chans| + n
    ensures forall c :: 0 <= c < |all| ==> all[c] == if c < |chans| then chans[c] else ch
  {
    if n == 0 then chans else Alike(chans, n - 1, ch) + [ch]
  }

  /** A fan-out: one goroutine, the outputs closed when it has returned. */
  function FanOutUnit(net: Net, in_: nat, count: nat, buffer: nat): Net {
    net.(gs := net.gs + [Goroutine(Plugin, in_, Range(|net.chans|, count), None)],
         chans := Alike(net.chans, count, Closing(buffer, {|net.gs|})))
  }

  // ---- The whole graph ----

  function InputUnits(net: Net, inputs: seq<seq<Filter>>, buffer: nat): Net {
    if inputs == [] then net
    else InputUnit(InputUnits(net, inputs[..|inputs| - 1], buffer), inputs[|inputs| - 1], buffer)
  }

  function InputOuts(net: Net, inputs: seq<seq<Filter>>, buffer: nat): (outs: seq<nat>)
    ensures |outs| == |inputs|
  {
    if inputs == [] then []
    else
      var front := inputs[..|inputs| - 1];
      InputOuts(net, front, buffer) + [InputOut(InputUnits(net, front, buffer), inputs[|front|])]
  }

  /** A line's processor units, each reading what the one before sends; the mixers at the same place of all lines
      form a group. */
  function LineUnits(net: Net, processors: seq<Processor>, in_: nat, buffer: nat): Net {
    if processors == [] then net
    else
      var front, last := processors[..|processors| - 1], processors[|processors| - 1];
      ProcessorUnit(LineUnits(net, front, in_, buffer), last.filters, LineOut(net, front, in_, buffer),
                    if last.mixer then Some(|front|) else None, buffer)
  }

  function LineOut(net: Net, processors: seq<Processor>, in_: nat, buffer: nat): nat {
    if processors == [] then in_ else |LineUnits(net, processors[..|processors| - 1], in_, buffer).chans|
  }

  function Lines(net: Net, processors: seq<Processor>, lines: nat, in_: nat, buffer: nat): Net {
    if lines == 0 then net else LineUnits(Lines(net, processors, lines - 1, in_, buffer), processors, in_, buffer)
  }

  function LineOuts(net: Net, processors: seq<Processor>, lines: nat, in_: nat, buffer: nat): (outs: seq<nat>)
    ensures |outs| == lines
  {
    if lines == 0 then []
    else
      LineOuts(net, processors, lines - 1, in_, buffer)
      + [LineOut(Lines(net, processors, lines - 1, in_, buffer), processors, in_, buffer)]
  }

  /** The k-th output unit reads the channel ins + k. */
  function OutputUnits(net: Net, outputs: seq<seq<Filter>>, ins: nat, buffer: nat): Net {
    if outputs == [] then net
    else
      var front := outputs[..|outputs| - 1];
      OutputUnit(OutputUnits(net, front, ins, buffer), outputs[|front|], ins + |front|, buffer)
  }

  /** The inputs and their fan-in, whose output is the last channel. */
  function Front(net: Net, cfg: Config): Net {
    FanInUnit(InputUnits(net, cfg.inputs, cfg.buffer), InputOuts(net, cfg.inputs, cfg.buffer), cfg.buffer)
  }

  /** The lines, which read the last channel, and their fan-in, if there are processors. */
  function Middle(net: Net, cfg: Config): Net
    requires net.chans != []
  {
    var in_ := |net.chans| - 1;
    if cfg.processors == [] then net
    else FanInUnit(Lines(net, cfg.processors, cfg.lines, in_, cfg.buffer),
                   LineOuts(net, cfg.processors, cfg.lines, in_, cfg.buffer), cfg.buffer)
  }

  /** The fan-out, which reads the last channel, and the output units. */
  function Back(net: Net, cfg: Config): Net
    requires net.chans != []
  {
    var n := |net.chans|;
    OutputUnits(FanOutUnit(net, n - 1, |cfg.outputs|, cfg.buffer), cfg.outputs, n, cfg.buffer)
  }

  /** The graph of a configuration. */
  function Shape(cfg: Config, copies: nat): Net {
    Back(Middle(Front(Net([], [], copies), cfg), cfg), cfg)
  }

  // ---- Built step by step, the units are as described ----

  /** n filters have been started; the close of the rejects channel waits for them if `waits`. */
  function FiltersOn(net: Net, n: nat, first: nat, rejects: nat, waits: bool, buffer: nat): (r: Net)
    requires rejects < |net.chans|
    ensures |r.gs| == |net.gs| + n && |r.chans| == |net.chans| + n && r.copies == net.copies
  {
    var g := |net.gs|;
    var chans := if waits then net.chans[rejects := Waiting(net.chans[rejects], Range(g, n))] else net.chans;
    net.(gs := Chain(net.gs, n, first, rejects, |net.chans|), chans := ChainChans(chans, g, n, buffer))
  }

  /** One filter: its accepts channel, and its goroutine. */
  function OneFilter(net: Net, input: nat, rejects: nat, waits: bool, buffer: nat): Net {
    WithGoroutine(WithChannel(net, buffer), Goroutine(Plugin, input, {rejects, |net.chans|}, None),
                  {|net.chans|} + if waits then {rejects} else {})
  }

  lemma NoFilters(net: Net, first: nat, rejects: nat, waits: bool, buffer: nat)
    requires rejects < |net.chans|
    ensures FiltersOn(net, 0, first, rejects, waits, buffer) == net
  {
    var ch := net.chans[rejects];
    if |ch.closes| == 1 {
      assert ch.closes[0] + {} == ch.closes[0] && [ch.closes[0]] == ch.closes;
    }
    assert net.chans[rejects := ch] == net.chans;
  }

  lemma SameNet(a: Net, b: Net)
    requires a.gs == b.gs && a.copies == b.copies && |a.chans| == |b.chans|
    requires forall c: nat :: c < |a.chans| ==> a.chans[c] == b.chans[c]
    ensures a == b
  {
  }

  lemma MoreFiltersGs(net: Net, n: nat, first: nat, rejects: nat, waits: bool, buffer: nat)
    requires rejects < |net.chans|
    ensures var after := FiltersOn(net, n + 1, first, rejects, waits, buffer);
            var built := OneFilter(FiltersOn(net, n, first, rejects, waits, buffer), Accepts(first, |net.chans|, n),
                                   rejects, waits, buffer);
            built.gs == after.gs && built.copies == after.copies && |built.chans| == |after.chans|
  {
    hide Range, ChainChans;
  }

  lemma MoreFilters(net: Net, n: nat, first: nat, rejects: nat, waits: bool, buffer: nat)
    requires rejects < |net.chans|
    ensures FiltersOn(net, n + 1, first, rejects, waits, buffer)
         == OneFilter(FiltersOn(net, n, first, rejects, waits, buffer), Accepts(first, |net.chans|, n), rejects,
           waits, buffer)
  {
    hide Chain, ChainChans, OneFilter, FiltersOn, Accepts, Range;
    var before := FiltersOn(net, n, first, rejects, waits, buffer);
    var after := FiltersOn(net, n + 1, first, rejects, waits, buffer);
    var built := OneFilter(before, Accepts(first, |net.chans|, n), rejects, waits, buffer);
    MoreFiltersGs(net, n, first, rejects, waits, buffer);
    forall c: nat | c < |built.chans| ensures built.chans[c] == after.chans[c] {
      MoreFiltersAt(net, n, first, rejects, waits, buffer, c);
    }
    SameNet(built, after);
  }

  lemma MoreFiltersAt(net: Net, n: nat, first: nat, rejects: nat, waits: bool, buffer: nat, c: nat)
    requires rejects < |net.chans| && c <= |net.chans| + n
    ensures var before := FiltersOn(net, n, first, rejects, waits, buffer);
            var built := OneFilter(before, Accepts(first, |net.chans|, n), rejects, waits, buffer);
            |built.chans| == |net.chans| + n + 1
            && built.chans[c] == FiltersOn(net, n + 1, first, rejects, waits, buffer).chans[c]
  {
    hide Chain, ChainChans;
    if c == |net.chans| + n {
      assert {} + {|net.gs| + n} == {|net.gs| + n};
    } else if c == rejects && waits && |net.chans[c].closes| == 1 {
      var w := net.chans[c].closes[0];
      assert (w + Range(|net.gs|, n)) + {|net.gs| + n} == w + Range(|net.gs|, n + 1);
    }
  }

  /** What starting a goroutine does to a channel. */
  lemma ChannelAfter(net: Net, g: Goroutine, waits: set<nat>, c: nat)
    requires c < |net.chans|
    ensures var r := WithGoroutine(net, g, waits);
            && |r.chans| == |net.chans| && r.gs == net.gs + [g] && r.copies == net.copies
            && r.chans[c] == if c in waits then Waiting(net.chans[c], {|net.gs|}) else net.chans[c]
  {
  }

  /** The channels of a unit before its goroutines are started. */
  function TwoChans(net: Net, buffer: nat): Net {
    WithChannel(WithChannel(net, buffer), buffer)
  }

  function InputOn(net: Net, buffer: nat): Net {
    WithGoroutine(TwoChans(net, buffer), Goroutine(Input, 0, {|net.chans|}, None), {|net.chans|, |net.chans| + 1})
  }

  lemma InputOnChans(net: Net, buffer: nat)
    ensures InputOn(net, buffer)
         == Net(net.gs + [Goroutine(Input, 0, {|net.chans|}, None)],
                net.chans + [Closing(buffer, {|net.gs|})] + [Closing(buffer, {|net.gs|})], net.copies)
  {
    var g := |net.gs|;
    var r := InputOn(net, buffer);
    assert {} + {g} == {g};
    assert r.chans == net.chans + [Closing(buffer, {g})] + [Closing(buffer, {g})];
  }

  lemma {:induction false} RangeFront(g: nat, n: nat)
    ensures {g} + Range(g + 1, n) == Range(g, n + 1)
  {
    if n > 0 {
      RangeFront(g, n - 1);
    }
  }

  lemma InputBuilt(net: Net, filters: seq<Filter>, buffer: nat)
    ensures WithGoroutine(FiltersOn(InputOn(net, buffer), |filters|, |net.chans|, |net.chans| + 1, true, buffer),
                          Goroutine(Sink, |net.chans| + 1, {}, None), {})
         == InputUnit(net, filters, buffer)
  {
    var g, rej, n := |net.gs|, |net.chans| + 1, |filters|;
    InputOnChans(net, buffer);
    RangeFront(g, n);
    var on := InputOn(net, buffer);
    hide InputOn, Chain, ChainChans, Range, WithGoroutine;
    OneLonger(net.chans, Closing(buffer, {g}), Closing(buffer, Range(g, n + 1)));
    NoWaits(FiltersOn(on, n, |net.chans|, rej, true, buffer), Goroutine(Sink, rej, {}, None));
  }

  lemma OneLonger(chans: seq<Channel>, a: Channel, b: Channel)
    ensures (chans + [a] + [a])[|chans| + 1 := b] == chans + [a] + [b]
  {
  }

  lemma NoWaits(net: Net, g: Goroutine)
    ensures WithGoroutine(net, g, {}) == net.(gs := net.gs + [g])
  {
    var r := WithGoroutine(net, g, {});
    assert r.chans == net.chans;
  }

  lemma ProcessorChans(net: Net, n: nat, in_: nat, buffer: nat, c: nat)
    requires c < |net.chans| + 2 + n
    ensures var g, out := |net.gs|, |net.chans|;
            var part := FiltersOn(TwoChans(net, buffer), n, in_, out, true, buffer);
            |part.chans| == out + 2 + n
            && part.chans[c] == if c < out then net.chans[c]
                                else if c == out then Closing(buffer, Range(g, n))
                                else if c == out + 1 then Closing(buffer, {})
                                else Closing(buffer, {g + c - out - 2})
  {
    hide Chain, ChainChans;
    assert {} + Range(|net.gs|, n) == Range(|net.gs|, n);
    hide Range;
  }

  /** The unit's goroutines and channels with its processor and its consumer started. */
  function ProcessorOn(net: Net, n: nat, in_: nat, group: Option<nat>, buffer: nat): Net {
    var out := |net.chans|;
    var p := Goroutine(Plugin, Accepts(in_, out + 2, n), if group.Some? then {out} else {out, out + 1}, group);
    WithGoroutine(WithGoroutine(FiltersOn(TwoChans(net, buffer), n, in_, out, true, buffer), p, {out, out + 1}),
                  Goroutine(Sink, out + 1, {}, None), {out})
  }

  lemma TwoMore(g: nat, n: nat)
    ensures Range(g, n) + {g + n} + {g + n + 1} == Range(g, n + 2) && {} + {g + n} == {g + n}
  {
  }

  /** The channels of a unit: what was there, two of its own, and those of its filters. */
  lemma ChannelOf(chans: seq<Channel>, a: Channel, b: Channel, g: nat, n: nat, buffer: nat, c: nat)
    requires c < |chans| + 2 + n
    ensures var all := ChainChans(chans + [a] + [b], g, n, buffer);
            && |all| == |chans| + 2 + n
            && all[c] == if c < |chans| then chans[c] else if c == |chans| then a else if c == |chans| + 1 then b
                         else Closing(buffer, {g + c - |chans| - 2})
  {
    hide ChainChans;
  }

  /** The c-th channel of a processor unit behind the network. */
  function ProcessorChannel(net: Net, n: nat, buffer: nat, c: nat): Channel
    requires c < |net.chans| + 2 + n
  {
    var g, out := |net.gs|, |net.chans|;
    if c < out then net.chans[c]
    else if c == out then Closing(buffer, Range(g, n + 2))
    else if c == out + 1 then Closing(buffer, {g + n})
    else Closing(buffer, {g + c - out - 2})
  }

  lemma UnitAt(net: Net, filters: seq<Filter>, in_: nat, group: Option<nat>, buffer: nat, c: nat)
    requires c < |net.chans| + 2 + |filters|
    ensures var unit := ProcessorUnit(net, filters, in_, group, buffer);
            |unit.chans| == |net.chans| + 2 + |filters| && unit.chans[c] == ProcessorChannel(net, |filters|, buffer, c)
  {
    var g, n := |net.gs|, |filters|;
    hide Chain, ChainChans, Range, Accepts;
    ChannelOf(net.chans, Closing(buffer, Range(g, n + 2)), Closing(buffer, {g + n}), g, n, buffer, c);
  }

  lemma OnAt(net: Net, n: nat, in_: nat, group: Option<nat>, buffer: nat, c: nat)
    requires c < |net.chans| + 2 + n
    ensures var r := ProcessorOn(net, n, in_, group, buffer);
            |r.chans| == |net.chans| + 2 + n && r.chans[c] == ProcessorChannel(net, n, buffer, c)
  {
    var out := |net.chans|;
    var part := FiltersOn(TwoChans(net, buffer), n, in_, out, true, buffer);
    var p := Goroutine(Plugin, Accepts(in_, out + 2, n), if group.Some? then {out} else {out, out + 1}, group);
    var sink := Goroutine(Sink, out + 1, {}, None);
    hide Chain, ChainChans, FiltersOn, WithGoroutine, Range, TwoChans, Accepts, Waiting, ProcessorChannel;
    ProcessorChans(net, n, in_, buffer, c);
    ChannelAfter(part, p, {out, out + 1}, c);
    ChannelAfter(WithGoroutine(part, p, {out, out + 1}), sink, {out}, c);
    WaitsAt(net, n, buffer, c);
  }

  /** What the starts of the processor and of the consumer add to the closes of a unit's channels. */
  lemma WaitsAt(net: Net, n: nat, buffer: nat, c: nat)
    requires c < |net.chans| + 2 + n
    ensures var g, out := |net.gs|, |net.chans|;
            ProcessorChannel(net, n, buffer, c)
            == if c < out then net.chans[c]
               else if c == out then Waiting(Waiting(Closing(buffer, Range(g, n)), {g + n}), {g + n + 1})
               else if c == out + 1 then Waiting(Closing(buffer, {}), {g + n})
               else Closing(buffer, {g + c - out - 2})
  {
    TwoMore(|net.gs|, n);
    hide Range;
  }

  lemma ProcessorGs(net: Net, filters: seq<Filter>, in_: nat, group: Option<nat>, buffer: nat)
    ensures var r, unit := ProcessorOn(net, |filters|, in_, group, buffer),
            ProcessorUnit(net, filters, in_, group, buffer);
            r.gs == unit.gs && r.copies == unit.copies
  {
    ChainOf(net, |filters|, in_, |net.chans|, buffer);
    hide Chain, ChainChans, FiltersOn, Range, TwoChans, Accepts;
  }

  lemma ProcessorBuilt(net: Net, filters: seq<Filter>, in_: nat, group: Option<nat>, buffer: nat)
    ensures ProcessorOn(net, |filters|, in_, group, buffer) == ProcessorUnit(net, filters, in_, group, buffer)
  {
    hide ProcessorOn, ProcessorUnit, ProcessorChannel;
    ProcessorGs(net, filters, in_, group, buffer);
    OnAt(net, |filters|, in_, group, buffer, 0);
    UnitAt(net, filters, in_, group, buffer, 0);
    forall c: nat | c < |net.chans| + 2 + |filters|
      ensures ProcessorOn(net, |filters|, in_, group, buffer).chans[c]
              == ProcessorUnit(net, filters, in_, group, buffer).chans[c]
    {
      OnAt(net, |filters|, in_, group, buffer, c);
      UnitAt(net, filters, in_, group, buffer, c);
    }
    SameNet(ProcessorOn(net, |filters|, in_, group, buffer), ProcessorUnit(net, filters, in_, group, buffer));
  }

  lemma ChainOf(net: Net, n: nat, in_: nat, rejects: nat, buffer: nat)
    requires rejects < |net.chans| + 2
    ensures forall waits ::
              var part := FiltersOn(TwoChans(net, buffer), n, in_, rejects, waits, buffer);
              part.gs == Chain(net.gs, n, in_, rejects, |net.chans| + 2) && part.copies == net.copies
  {
    hide Chain;
  }

  lemma OutputChans(net: Net, n: nat, in_: nat, buffer: nat, c: nat)
    requires c < |net.chans| + 2 + n
    ensures var g, rej := |net.gs|, |net.chans|;
            var part := FiltersOn(TwoChans(net, buffer), n, in_, rej, false, buffer);
            |part.chans| == rej + 2 + n
            && part.chans[c] == if c < rej then net.chans[c]
                                else if c <= rej + 1 then Closing(buffer, {})
                                else Closing(buffer, {g + c - rej - 2})
  {
    hide Chain, ChainChans;
  }

  lemma OutputBuilt(net: Net, filters: seq<Filter>, in_: nat, buffer: nat)
    ensures var rej, n := |net.chans|, |filters|;
            var part := FiltersOn(TwoChans(net, buffer), n, in_, rej, false, buffer);
            var o := Goroutine(Plugin, Accepts(in_, rej + 2, n), {rej + 1}, None);
            WithGoroutine(WithGoroutine(WithGoroutine(part, o, {rej, rej + 1}), Goroutine(Sink, rej, {}, None), {}),
                          Goroutine(Sink, rej + 1, {}, None), {})
            == OutputUnit(net, filters, in_, buffer)
  {
    var g, rej, n := |net.gs|, |net.chans|, |filters|;
    var part := FiltersOn(TwoChans(net, buffer), n, in_, rej, false, buffer);
    var o := Goroutine(Plugin, Accepts(in_, rej + 2, n), {rej + 1}, None);
    var mid := WithGoroutine(part, o, {rej, rej + 1});
    var chans := ChainChans(net.chans + [Closing(buffer, {g + n})] + [Closing(buffer, {g + n})], g, n, buffer);
    assert {} + {g + n} == {g + n};
    NoWaits(mid, Goroutine(Sink, rej, {}, None));
    NoWaits(mid.(gs := mid.gs + [Goroutine(Sink, rej, {}, None)]), Goroutine(Sink, rej + 1, {}, None));
    ChainOf(net, n, in_, rej, buffer);
    hide Chain, ChainChans, FiltersOn, WithGoroutine, Range, TwoChans, Accepts;
    forall c: nat | c < |chans| ensures |mid.chans| == |chans| && mid.chans[c] == chans[c] {
      OutputChans(net, n, in_, buffer, c);
      ChannelAfter(part, o, {rej, rej + 1}, c);
    }
    OutputChans(net, n, in_, buffer, rej);
    ChannelAfter(part, o, {rej, rej + 1}, rej);
    assert mid.chans == chans;
  }

  // ---- Fan-in and fan-out ----

  lemma NoWorkers(net: Net, buffer: nat)
    ensures FanInUnit(net, [], buffer) == WithChannel(net, buffer)
  {
  }

  lemma MoreWorkers(net: Net, ins: seq<nat>, i: nat, buffer: nat)
    requires i < |ins|
    ensures FanInUnit(net, ins[..i + 1], buffer)
         == WithGoroutine(FanInUnit(net, ins[..i], buffer), Goroutine(Plugin, ins[i], {|net.chans|}, None),
           {|net.chans|})
  {
    assert ins[..i + 1][..i] == ins[..i];
    var before, after := FanInUnit(net, ins[..i], buffer), FanInUnit(net, ins[..i + 1], buffer);
    var w := Goroutine(Plugin, ins[i], {|net.chans|}, None);
    WorkersSize(net.gs, ins[..i], |net.chans|);
    hide Workers;
    forall c: nat | c < |after.chans| ensures WithGoroutine(before, w, {|net.chans|}).chans[c] == after.chans[c] {
      ChannelAfter(before, w, {|net.chans|}, c);
    }
    ChannelAfter(before, w, {|net.chans|}, |net.chans|);
    hide WithGoroutine, Range;
    SameNet(WithGoroutine(before, w, {|net.chans|}), after) by { WorkersNext(net.gs, ins, i, |net.chans|); }
  }

  lemma {:induction false} WorkersSize(gs: seq<Goroutine>, ins: seq<nat>, out: nat)
    ensures |Workers(gs, ins, out)| == |gs| + |ins|
  {
    if ins != [] {
      WorkersSize(gs, ins[..|ins| - 1], out);
    }
  }

  lemma WorkersNext(gs: seq<Goroutine>, ins: seq<nat>, i: nat, out: nat)
    requires i < |ins|
    ensures Workers(gs, ins[..i + 1], out) == Workers(gs, ins[..i], out) + [Goroutine(Plugin, ins[i], {out}, None)]
  {
    assert ins[..i + 1][..i] == ins[..i];
  }

  /** The channels of a fan-out before it is started. */
  function OutsMade(net: Net, count: nat, buffer: nat): Net {
    net.(chans := Alike(net.chans, count, Closing(buffer, {})))
  }

  lemma MoreOuts(net: Net, count: nat, buffer: nat)
    ensures OutsMade(net, 0, buffer) == net
    ensures OutsMade(net, count + 1, buffer) == WithChannel(OutsMade(net, count, buffer), buffer)
  {
  }

  lemma FanOutBuilt(net: Net, in_: nat, count: nat, buffer: nat)
    ensures WithGoroutine(OutsMade(net, count, buffer), Goroutine(Plugin, in_, Range(|net.chans|, count), None),
                          Range(|net.chans|, count))
         == FanOutUnit(net, in_, count, buffer)
  {
    var made, after := OutsMade(net, count, buffer), FanOutUnit(net, in_, count, buffer);
    var f := Goroutine(Plugin, in_, Range(|net.chans|, count), None);
    assert {} + {|net.gs|} == {|net.gs|};
    hide Alike, Range;
    forall c: nat | c < |after.chans|
      ensures WithGoroutine(made, f, Range(|net.chans|, count)).chans[c] == after.chans[c]
    {
      InRangeBounds(|net.chans|, count, c);
      ChannelAfter(made, f, Range(|net.chans|, count), c);
    }
    SameNet(WithGoroutine(made, f, Range(|net.chans|, count)), after);
  }

  // ---- The lists of units, one unit at a time ----

  lemma InputsStep(net: Net, inputs: seq<seq<Filter>>, i: nat, buffer: nat)
    requires i < |inputs|
    ensures var part := InputUnits(net, inputs[..i], buffer);
            && InputUnits(net, inputs[..i + 1], buffer) == InputUnit(part, inputs[i], buffer)
            && InputOuts(net, inputs[..i + 1], buffer)
              == InputOuts(net, inputs[..i], buffer) + [InputOut(part, inputs[i])]
  {
    assert inputs[..i + 1][..i] == inputs[..i];
  }

  lemma LineStep(net: Net, processors: seq<Processor>, k: nat, in_: nat, buffer: nat)
    requires k < |processors|
    ensures var part := LineUnits(net, processors[..k], in_, buffer);
            && LineUnits(net, processors[..k + 1], in_, buffer)
               == ProcessorUnit(part, processors[k].filters, LineOut(net, processors[..k], in_, buffer),
                                if processors[k].mixer then Some(k) else None, buffer)
            && LineOut(net, processors[..k + 1], in_, buffer) == |part.chans|
  {
    assert processors[..k + 1][..k] == processors[..k];
  }

  lemma OutputsStep(net: Net, outputs: seq<seq<Filter>>, i: nat, ins: nat, buffer: nat)
    requires i < |outputs|
    ensures OutputUnits(net, outputs[..i + 1], ins, buffer)
         == OutputUnit(OutputUnits(net, outputs[..i], ins, buffer), outputs[i], ins + i, buffer)
  {
    assert outputs[..i + 1][..i] == outputs[..i];
  }
}
