/** Where every unit of a configuration stands in the whole graph, in plain numbers, and who reads what it sends. */
module PipelineLayout {
  import opened Options
  import opened Graph
  import opened Topology
  import opened PipelineGrowth

  // ---- Sizes and places ----

  /** The channels of a list of input or output units, which are also the goroutines of input units. */
  function Sizes(units: seq<seq<Filter>>): nat {
    if units == [] then 0 else Sizes(units[..|units| - 1]) + |units[|units| - 1]| + 2
  }

  function LineSize(processors: seq<Processor>): nat {
    if processors == [] then 0
    else LineSize(processors[..|processors| - 1]) + |processors[|processors| - 1].filters| + 2
  }

  /** The channel that the inputs are merged to, which all lines read. */
  function MergedC(cfg: Config): nat {
    Sizes(cfg.inputs)
  }

  /** The first goroutine of the k-th unit of line l, and the unit's output channel. */
  function UnitG(cfg: Config, l: nat, k: nat): nat
    requires k <= |cfg.processors|
  {
    Sizes(cfg.inputs) + |cfg.inputs| + l * LineSize(cfg.processors) + LineSize(cfg.processors[..k])
  }

  function UnitC(cfg: Config, l: nat, k: nat): nat
    requires k <= |cfg.processors|
  {
    Sizes(cfg.inputs) + 1 + l * LineSize(cfg.processors) + LineSize(cfg.processors[..k])
  }

  /** The fan-out's goroutine, and the first of its output channels. The channel before is the one that it reads. */
  function FanG(cfg: Config): nat {
    UnitG(cfg, if cfg.processors == [] then 0 else cfg.lines, 0) + if cfg.processors == [] then 0 else cfg.lines
  }

  function FanC(cfg: Config): (c: nat)
    ensures c >= 1
  {
    UnitC(cfg, if cfg.processors == [] then 0 else cfg.lines, 0) + if cfg.processors == [] then 0 else 1
  }

  /** The first goroutine of the o-th output unit, and its rejects channel. */
  function OutputG(cfg: Config, o: nat): nat
    requires o <= |cfg.outputs|
  {
    FanG(cfg) + 1 + Sizes(cfg.outputs[..o]) + o
  }

  function OutputC(cfg: Config, o: nat): nat
    requires o <= |cfg.outputs|
  {
    FanC(cfg) + |cfg.outputs| + Sizes(cfg.outputs[..o])
  }

  lemma SizesNext(units: seq<seq<Filter>>, i: nat)
    requires i < |units|
    ensures Sizes(units[..i + 1]) == Sizes(units[..i]) + |units[i]| + 2
  {
    assert units[..i + 1][..i] == units[..i];
  }

  lemma LineSizeNext(processors: seq<Processor>, k: nat)
    requires k < |processors|
    ensures LineSize(processors[..k + 1]) == LineSize(processors[..k]) + |processors[k].filters| + 2
  {
    assert processors[..k + 1][..k] == processors[..k];
  }

  lemma {:induction false} LineSizeGrows(processors: seq<Processor>, k: nat, m: nat)
    requires k <= m <= |processors|
    ensures LineSize(processors[..k]) <= LineSize(processors[..m])
  {
    if k < m {
      LineSizeGrows(processors, k, m - 1);
      LineSizeNext(processors, m - 1);
    }
  }

  /** A line ends where the next one begins. */
  lemma NextLine(cfg: Config, l: nat)
    ensures UnitG(cfg, l, |cfg.processors|) == UnitG(cfg, l + 1, 0)
    ensures UnitC(cfg, l, |cfg.processors|) == UnitC(cfg, l + 1, 0)
  {
    assert cfg.processors[..|cfg.processors|] == cfg.processors;
    assert (l + 1) * LineSize(cfg.processors) == l * LineSize(cfg.processors) + LineSize(cfg.processors);
  }

  lemma {:induction false} LinesInOrder(cfg: Config, l: nat, m: nat)
    requires l <= m
    ensures UnitC(cfg, l, 0) <= UnitC(cfg, m, 0)
  {
    if l < m {
      LinesInOrder(cfg, l, m - 1);
      NextLine(cfg, m - 1);
      LineSizeGrows(cfg.processors, 0, |cfg.processors|);
    }
  }

  /** The units of a line, and the lines, stand in their order. */
  lemma UnitsInOrder(cfg: Config, l: nat, k: nat, m: nat)
    requires k <= m <= |cfg.processors|
    ensures UnitC(cfg, l, k) <= UnitC(cfg, l, m) && UnitC(cfg, l, 0) > MergedC(cfg)
    ensures k < |cfg.processors| ==> UnitC(cfg, l, k + 1) == UnitC(cfg, l, k) + |cfg.processors[k].filters| + 2
    ensures k < |cfg.processors| ==> UnitG(cfg, l, k + 1) == UnitG(cfg, l, k) + |cfg.processors[k].filters| + 2
  {
    LineSizeGrows(cfg.processors, k, m);
    if k < |cfg.processors| {
      LineSizeNext(cfg.processors, k);
    }
    hide LineSize, Sizes;
    assert l * LineSize(cfg.processors) >= 0;
  }

  // ---- The inputs ----

  function BeforeInput(cfg: Config, copies: nat, i: nat): Net
    requires i <= |cfg.inputs|
  {
    InputUnits(Net([], [], copies), cfg.inputs[..i], cfg.buffer)
  }

  /** The channel that the i-th input unit sends on. */
  function InputC(cfg: Config, i: nat): nat
    requires i < |cfg.inputs|
  {
    Sizes(cfg.inputs[..i]) + if |cfg.inputs[i]| == 0 then 0 else |cfg.inputs[i]| + 1
  }

  function InputCs(cfg: Config): (cs: seq<nat>)
    ensures |cs| == |cfg.inputs| && forall i :: 0 <= i < |cs| ==> cs[i] == InputC(cfg, i)
  {
    seq(|cfg.inputs|, i requires 0 <= i < |cfg.inputs| => InputC(cfg, i))
  }

  lemma {:induction false} InputsStand(cfg: Config, copies: nat, i: nat)
    requires i <= |cfg.inputs|
    ensures var net := BeforeInput(cfg, copies, i);
            |net.gs| == |net.chans| == Sizes(cfg.inputs[..i]) && Inside(net) && net.copies == copies
  {
    if i > 0 {
      hide Adds, InputAt, OnlyReader, NoReader, Inside;
      InputsStand(cfg, copies, i - 1);
      OneInput(cfg, copies, i - 1);
      SizesNext(cfg.inputs, i - 1);
      hide BeforeInput, Sizes;
    }
  }

  lemma {:induction false} InputsSend(cfg: Config, copies: nat, i: nat)
    requires i <= |cfg.inputs|
    ensures InputOuts(Net([], [], copies), cfg.inputs[..i], cfg.buffer) == InputCs(cfg)[..i]
  {
    hide InputCs, InputC, Inside, Sizes, BeforeInput;
    if i > 0 {
      InputsSend(cfg, copies, i - 1);
      InputsStand(cfg, copies, i - 1);
      OneInput(cfg, copies, i - 1);
      NextInput(cfg, copies, i - 1);
      hide InputAdded, InputOut, InputOuts;
      assert InputCs(cfg)[..i] == InputCs(cfg)[..i - 1] + [InputC(cfg, i - 1)];
    }
  }

  lemma NextInput(cfg: Config, copies: nat, i: nat)
    requires i < |cfg.inputs|
    ensures InputOuts(Net([], [], copies), cfg.inputs[..i + 1], cfg.buffer)
         == InputOuts(Net([], [], copies), cfg.inputs[..i], cfg.buffer)
            + [InputOut(BeforeInput(cfg, copies, i), cfg.inputs[i])]
  {
    InputsStep(Net([], [], copies), cfg.inputs, i, cfg.buffer);
  }

  /** The next input unit. */
  lemma OneInput(cfg: Config, copies: nat, i: nat)
    requires i < |cfg.inputs|
    requires var net := BeforeInput(cfg, copies, i);
             |net.gs| == |net.chans| == Sizes(cfg.inputs[..i]) && Inside(net)
    ensures InputAdded(BeforeInput(cfg, copies, i), BeforeInput(cfg, copies, i + 1), |cfg.inputs[i]|, InputC(cfg, i),
                       cfg.buffer)
    ensures InputOut(BeforeInput(cfg, copies, i), cfg.inputs[i]) == InputC(cfg, i)
  {
    InputsStep(Net([], [], copies), cfg.inputs, i, cfg.buffer);
    assert InputOut(BeforeInput(cfg, copies, i), cfg.inputs[i]) == InputC(cfg, i);
    hide InputUnits, InputOuts, InputUnit, InputOut, InputC, InputAdded, Inside;
    AddInput(BeforeInput(cfg, copies, i), cfg.inputs[i], cfg.buffer);
  }

  lemma {:induction false} InputsGrow(cfg: Config, copies: nat, i: nat, m: nat)
    requires i <= m <= |cfg.inputs|
    ensures Adds(BeforeInput(cfg, copies, i), BeforeInput(cfg, copies, m), {})
  {
    hide BeforeInput;
    if i < m {
      InputsGrow(cfg, copies, i, m - 1);
      InputsStand(cfg, copies, m - 1);
      OneInput(cfg, copies, m - 1);
      AddsMore(BeforeInput(cfg, copies, i), BeforeInput(cfg, copies, m - 1), BeforeInput(cfg, copies, m), {}, {});
    }
  }

  // ---- The fan-in of the inputs ----

  /** A fan-in: one goroutine for each of `ins`, which all send on the channel that it adds; this is closed when all of
      them have returned. */
  ghost predicate FanInAt(net: Net, g: nat, ins: seq<nat>, out: nat, buffer: nat) {
    && g + |ins| <= |net.gs| && out < |net.chans|
    && (forall x :: g <= x < g + |ins| ==> net.gs[x] == Goroutine(Plugin, ins[x - g], {out}, None))
    && ClosedBy(net.chans[out], buffer, g, g + |ins| - 1)
  }

  lemma FanInIs(net: Net, ins: seq<nat>, buffer: nat)
    requires Inside(net) && forall i :: 0 <= i < |ins| ==> ins[i] < |net.chans|
    ensures var unit := FanInUnit(net, ins, buffer);
            && FanInAt(unit, |net.gs|, ins, |net.chans|, buffer)
            && |unit.gs| == |net.gs| + |ins| && |unit.chans| == |net.chans| + 1 && unit.copies == net.copies
            && Adds(net, unit, set c | c in ins) && Inside(unit) && NoReader(unit, |net.chans|)
  {
    WorkersAre(net.gs, ins, |net.chans|);
    if ins != [] {
      RangeCloses(|net.gs|, |ins|, buffer);
    }
    hide Workers;
  }

  /** Of the worker's channels, each is read by its worker only. */
  lemma WorkerReads(net: Net, ins: seq<nat>, buffer: nat, i: nat)
    requires i < |ins| && NoReader(net, ins[i]) && forall j :: 0 <= j < |ins| && j != i ==> ins[j] != ins[i]
    ensures OnlyReader(FanInUnit(net, ins, buffer), ins[i], |net.gs| + i)
  {
    var unit := FanInUnit(net, ins, buffer);
    WorkersAre(net.gs, ins, |net.chans|);
    hide Workers;
    forall y: nat | |net.gs| <= y ensures Reads(unit, y, ins[i]) <==> y == |net.gs| + i {
      if y < |unit.gs| {
        assert unit.gs[y].input == ins[y - |net.gs|];
      }
    }
    FirstReader(net, unit, ins[i], |net.gs| + i);
  }

  /** The graph after the inputs and their fan-in; the lines read its last channel. */
  function Merged(cfg: Config, copies: nat): (net: Net)
    ensures net.chans != []
  {
    Front(Net([], [], copies), cfg)
  }

  lemma MergedIs(cfg: Config, copies: nat)
    ensures Merged(cfg, copies) == FanInUnit(BeforeInput(cfg, copies, |cfg.inputs|), InputCs(cfg), cfg.buffer)
    ensures Inside(BeforeInput(cfg, copies, |cfg.inputs|))
    ensures |BeforeInput(cfg, copies, |cfg.inputs|).gs| == |BeforeInput(cfg, copies, |cfg.inputs|).chans|
            == MergedC(cfg)
    ensures forall i :: 0 <= i < |cfg.inputs| ==> InputCs(cfg)[i] < MergedC(cfg)
  {
    InputsStand(cfg, copies, |cfg.inputs|);
    InputsSend(cfg, copies, |cfg.inputs|);
    assert cfg.inputs[..|cfg.inputs|] == cfg.inputs && InputCs(cfg)[..|cfg.inputs|] == InputCs(cfg);
    forall i | 0 <= i < |cfg.inputs| ensures InputCs(cfg)[i] < MergedC(cfg) {
      InputBelow(cfg, i, |cfg.inputs|);
    }
    hide InputUnits, InputOuts, FanInUnit, Sizes, InputC, Inside;
  }

  lemma {:induction false} InputBelow(cfg: Config, i: nat, m: nat)
    requires i < m <= |cfg.inputs|
    ensures InputC(cfg, i) < Sizes(cfg.inputs[..m]) && (m < |cfg.inputs| ==> InputC(cfg, i) < InputC(cfg, m))
    ensures Sizes(cfg.inputs[..i]) + |cfg.inputs[i]| + 2 <= Sizes(cfg.inputs[..m])
  {
    SizesNext(cfg.inputs, m - 1);
    if i < m - 1 {
      InputBelow(cfg, i, m - 1);
    }
  }

  lemma MergedStands(cfg: Config, copies: nat)
    ensures var net := Merged(cfg, copies);
            && |net.gs| == UnitG(cfg, 0, 0) && |net.chans| == UnitC(cfg, 0, 0) == MergedC(cfg) + 1
            && net.copies == copies && Inside(net)
            && Adds(BeforeInput(cfg, copies, |cfg.inputs|), net, set c | c in InputCs(cfg))
            && FanInAt(net, MergedC(cfg), InputCs(cfg), MergedC(cfg), cfg.buffer) && NoReader(net, MergedC(cfg))
  {
    MergedIs(cfg, copies);
    InputsStand(cfg, copies, |cfg.inputs|);
    hide BeforeInput, Merged, InputCs, Inside, Adds, FanInAt, NoReader, FanInUnit, Sizes;
    FanInIs(BeforeInput(cfg, copies, |cfg.inputs|), InputCs(cfg), cfg.buffer);
    assert cfg.processors[..0] == [];
  }

  /** The worker of the i-th input is the only reader of what the input unit sends. */
  lemma InputIsMerged(cfg: Config, copies: nat, i: nat)
    requires i < |cfg.inputs|
    ensures OnlyReader(Merged(cfg, copies), InputC(cfg, i), MergedC(cfg) + i)
  {
    hide BeforeInput, Merged, Inside, Adds, NoReader, FanInUnit, Sizes;
    var before := BeforeInput(cfg, copies, |cfg.inputs|);
    MergedIs(cfg, copies);
    InputsStand(cfg, copies, i);
    OneInput(cfg, copies, i);
    InputsGrow(cfg, copies, i + 1, |cfg.inputs|);
    InputBelow(cfg, i, i + 1);
    SizesNext(cfg.inputs, i);
    StaysUnread(BeforeInput(cfg, copies, i + 1), before, {}, InputC(cfg, i));
    forall j | 0 <= j < |cfg.inputs| && j != i ensures InputCs(cfg)[j] != InputCs(cfg)[i] {
      if i < j { InputBelow(cfg, i, j); } else { InputBelow(cfg, j, i); }
    }
    WorkerReads(before, InputCs(cfg), cfg.buffer, i);
  }

  // ---- The lines ----

  /** The graph before line l. */
  function BeforeLine(cfg: Config, copies: nat, l: nat): Net {
    Lines(Merged(cfg, copies), cfg.processors, l, |Merged(cfg, copies).chans| - 1, cfg.buffer)
  }

  /** The graph before the k-th processor unit of line l, and the channel that this unit reads. */
  function BeforeProcessor(cfg: Config, copies: nat, l: nat, k: nat): Net
    requires k <= |cfg.processors|
  {
    LineUnits(BeforeLine(cfg, copies, l), cfg.processors[..k], |Merged(cfg, copies).chans| - 1, cfg.buffer)
  }

  function ProcessorIn(cfg: Config, l: nat, k: nat): nat
    requires k <= |cfg.processors|
  {
    if k == 0 then MergedC(cfg) else UnitC(cfg, l, k - 1)
  }

  /** What stands before the k-th unit of line l. */
  ghost predicate LineStands(cfg: Config, copies: nat, l: nat, k: nat)
    requires k <= |cfg.processors|
  {
    var net := BeforeProcessor(cfg, copies, l, k);
    && |net.gs| == UnitG(cfg, l, k) && |net.chans| == UnitC(cfg, l, k) && Inside(net)
    && LineOut(BeforeLine(cfg, copies, l), cfg.processors[..k], |Merged(cfg, copies).chans| - 1, cfg.buffer)
       == ProcessorIn(cfg, l, k)
  }

  lemma ProcessorNext(cfg: Config, copies: nat, l: nat, k: nat)
    requires k < |cfg.processors| && LineStands(cfg, copies, l, k) && ProcessorIn(cfg, l, k) < UnitC(cfg, l, k)
    ensures var net, unit := BeforeProcessor(cfg, copies, l, k), BeforeProcessor(cfg, copies, l, k + 1);
            var n := |cfg.processors[k].filters|;
            && ProcessorAdded(net, unit, n, ProcessorIn(cfg, l, k), if cfg.processors[k].mixer then Some(k) else None,
                              cfg.buffer)
            && |unit.gs| == UnitG(cfg, l, k) + n + 2 && |unit.chans| == UnitC(cfg, l, k) + n + 2 && Inside(unit)
            && LineOut(BeforeLine(cfg, copies, l), cfg.processors[..k + 1], |Merged(cfg, copies).chans| - 1, cfg.buffer)
               == UnitC(cfg, l, k)
  {
    var net, p := BeforeProcessor(cfg, copies, l, k), cfg.processors[k];
    LineStep(BeforeLine(cfg, copies, l), cfg.processors, k, |Merged(cfg, copies).chans| - 1, cfg.buffer);
    hide Merged, BeforeLine, LineUnits, LineOut, UnitG, UnitC, ProcessorIn, ProcessorAt, Adds, Inside, ProcessorUnit,
         OnlyReader, NoReader;
    AddProcessor(net, p.filters, ProcessorIn(cfg, l, k), if p.mixer then Some(k) else None, cfg.buffer);
  }

  /** The next processor unit. */
  lemma OneProcessor(cfg: Config, copies: nat, l: nat, k: nat)
    requires k < |cfg.processors| && LineStands(cfg, copies, l, k)
    ensures LineStands(cfg, copies, l, k + 1)
    ensures ProcessorAdded(BeforeProcessor(cfg, copies, l, k), BeforeProcessor(cfg, copies, l, k + 1),
                           |cfg.processors[k].filters|, ProcessorIn(cfg, l, k),
                           if cfg.processors[k].mixer then Some(k) else None, cfg.buffer)
  {
    UnitsInOrder(cfg, l, k, k);
    if k > 0 {
      UnitsInOrder(cfg, l, k - 1, k);
    }
    hide UnitG, UnitC, MergedC, ProcessorAdded, BeforeProcessor, BeforeLine, Merged, LineOut, Inside;
    ProcessorNext(cfg, copies, l, k);
  }

  lemma LineBegins(cfg: Config, copies: nat, l: nat)
    ensures BeforeProcessor(cfg, copies, l, 0) == BeforeLine(cfg, copies, l)
    ensures BeforeProcessor(cfg, copies, l, |cfg.processors|) == BeforeLine(cfg, copies, l + 1)
    ensures BeforeLine(cfg, copies, 0) == Merged(cfg, copies)
    ensures LineOut(BeforeLine(cfg, copies, l), cfg.processors[..0], |Merged(cfg, copies).chans| - 1, cfg.buffer)
            == |Merged(cfg, copies).chans| - 1
  {
    assert cfg.processors[..|cfg.processors|] == cfg.processors && cfg.processors[..0] == [];
    hide Merged;
  }

  lemma {:induction false} UnitStands(cfg: Config, copies: nat, l: nat, k: nat)
    requires k <= |cfg.processors|
    ensures LineStands(cfg, copies, l, k)
    decreases l, k
  {
    hide Merged, BeforeLine, LineOut, BeforeProcessor, UnitG, UnitC, Inside;
    if k > 0 {
      UnitStands(cfg, copies, l, k - 1);
      OneProcessor(cfg, copies, l, k - 1);
    } else {
      LineBegins(cfg, copies, l);
      MergedStands(cfg, copies);
      if l > 0 {
        UnitStands(cfg, copies, l - 1, |cfg.processors|);
        LineBegins(cfg, copies, l - 1);
        NextLine(cfg, l - 1);
      }
    }
  }

  lemma {:induction false} LineGrows(cfg: Config, copies: nat, l: nat, k: nat, m: nat)
    requires k <= m <= |cfg.processors|
    ensures Adds(BeforeProcessor(cfg, copies, l, k), BeforeProcessor(cfg, copies, l, m), {ProcessorIn(cfg, l, k)})
  {
    hide BeforeProcessor, Inside;
    if k < m {
      LineGrows(cfg, copies, l, k, m - 1);
      UnitStands(cfg, copies, l, k);
      UnitStands(cfg, copies, l, m - 1);
      OneProcessor(cfg, copies, l, m - 1);
      if k < m - 1 {
        UnitsInOrder(cfg, l, k, m - 2);
      }
      hide UnitC, MergedC, Adds;
      AddsMore(BeforeProcessor(cfg, copies, l, k), BeforeProcessor(cfg, copies, l, m - 1),
               BeforeProcessor(cfg, copies, l, m), {ProcessorIn(cfg, l, k)}, {ProcessorIn(cfg, l, m - 1)});
    }
  }

  lemma {:induction false} LinesGrow(cfg: Config, copies: nat, l: nat, m: nat)
    requires l <= m
    ensures Adds(BeforeLine(cfg, copies, l), BeforeLine(cfg, copies, m), {MergedC(cfg)})
  {
    hide BeforeProcessor, BeforeLine, MergedC;
    if l < m {
      LinesGrow(cfg, copies, l, m - 1);
      LineGrows(cfg, copies, m - 1, 0, |cfg.processors|);
      LineBegins(cfg, copies, m - 1);
      hide Adds;
      AddsMore(BeforeLine(cfg, copies, l), BeforeLine(cfg, copies, m - 1), BeforeLine(cfg, copies, m), {MergedC(cfg)},
               {MergedC(cfg)});
    }
  }

  // ---- The fan-in of the lines, and the fan-out ----

  /** The graph before the fan-out, which reads its last channel. */
  function Joined(cfg: Config, copies: nat): Net {
    Middle(Merged(cfg, copies), cfg)
  }

  /** What the last units of the lines send on. */
  function LineCs(cfg: Config): (cs: seq<nat>)
    requires cfg.processors != []
    ensures |cs| == cfg.lines && forall l :: 0 <= l < |cs| ==> cs[l] == UnitC(cfg, l, |cfg.processors| - 1)
  {
    seq(cfg.lines, l requires 0 <= l < cfg.lines => UnitC(cfg, l, |cfg.processors| - 1))
  }

  lemma {:induction false} LinesSend(cfg: Config, copies: nat, l: nat)
    requires cfg.processors != [] && l <= cfg.lines
    ensures LineOuts(Merged(cfg, copies), cfg.processors, l, |Merged(cfg, copies).chans| - 1, cfg.buffer)
         == LineCs(cfg)[..l]
  {
    hide Merged, LineCs, UnitC, LineOut;
    if l > 0 {
      LinesSend(cfg, copies, l - 1);
      UnitStands(cfg, copies, l - 1, |cfg.processors|);
      assert cfg.processors[..|cfg.processors|] == cfg.processors;
      assert LineCs(cfg)[..l] == LineCs(cfg)[..l - 1] + [LineCs(cfg)[l - 1]];
    }
  }

  lemma LineCBelow(cfg: Config, l: nat, m: nat)
    requires cfg.processors != [] && l < m
    ensures UnitC(cfg, l, |cfg.processors| - 1) < UnitC(cfg, m, 0)
    ensures forall k: nat :: k <= |cfg.processors| ==> UnitC(cfg, l, k) <= UnitC(cfg, m, 0) <= UnitC(cfg, m, k)
  {
    NextLine(cfg, l);
    UnitsInOrder(cfg, l, |cfg.processors| - 1, |cfg.processors|);
    LinesInOrder(cfg, l + 1, m);
    hide UnitC;
    forall k: nat | k <= |cfg.processors| ensures UnitC(cfg, l, k) <= UnitC(cfg, m, 0) <= UnitC(cfg, m, k) {
      UnitsInOrder(cfg, l, k, |cfg.processors|);
      UnitsInOrder(cfg, m, 0, k);
    }
  }

  lemma JoinedIs(cfg: Config, copies: nat)
    requires cfg.processors != []
    ensures Joined(cfg, copies) == FanInUnit(BeforeLine(cfg, copies, cfg.lines), LineCs(cfg), cfg.buffer)
    ensures var net := BeforeLine(cfg, copies, cfg.lines);
            && |net.gs| == UnitG(cfg, cfg.lines, 0) && |net.chans| == UnitC(cfg, cfg.lines, 0) && Inside(net)
    ensures forall l :: 0 <= l < cfg.lines ==> LineCs(cfg)[l] < UnitC(cfg, cfg.lines, 0)
  {
    LinesSend(cfg, copies, cfg.lines);
    UnitStands(cfg, copies, cfg.lines, 0);
    LineBegins(cfg, copies, cfg.lines);
    assert LineCs(cfg)[..cfg.lines] == LineCs(cfg);
    forall l | 0 <= l < cfg.lines ensures LineCs(cfg)[l] < UnitC(cfg, cfg.lines, 0) {
      LineCBelow(cfg, l, cfg.lines);
    }
    hide LineCs, Merged, Lines, UnitC, UnitG, LineOuts, FanInUnit, Inside;
  }

  lemma JoinedStands(cfg: Config, copies: nat)
    ensures var net := Joined(cfg, copies);
            && |net.gs| == FanG(cfg) && |net.chans| == FanC(cfg) && Inside(net) && NoReader(net, FanC(cfg) - 1)
            && (cfg.processors == [] ==> net == Merged(cfg, copies))
            && (cfg.processors != [] ==>
                  && Adds(BeforeLine(cfg, copies, cfg.lines), net, set c | c in LineCs(cfg))
                  && FanInAt(net, UnitG(cfg, cfg.lines, 0), LineCs(cfg), FanC(cfg) - 1, cfg.buffer))
  {
    hide Merged;
    if cfg.processors == [] {
      MergedStands(cfg, copies);
    } else {
      JoinedIs(cfg, copies);
      hide LineCs, UnitC, UnitG, FanInUnit, Inside, BeforeLine, Joined, NoReader, Adds, FanInAt;
      FanInIs(BeforeLine(cfg, copies, cfg.lines), LineCs(cfg), cfg.buffer);
    }
  }

  /** The graph with the fan-out, and then before the o-th output unit. */
  function Fanned(cfg: Config, copies: nat): Net {
    var net := Joined(cfg, copies);
    FanOutUnit(net, |net.chans| - 1, |cfg.outputs|, cfg.buffer)
  }

  function BeforeOutput(cfg: Config, copies: nat, o: nat): Net
    requires o <= |cfg.outputs|
  {
    OutputUnits(Fanned(cfg, copies), cfg.outputs[..o], |Joined(cfg, copies).chans|, cfg.buffer)
  }

  /** The fan-out's goroutine, and its n outputs, which are closed when it has returned. */
  ghost predicate FanOutAt(net: Net, g: nat, in_: nat, own: nat, n: nat, buffer: nat) {
    && g < |net.gs| && own + n <= |net.chans|
    && net.gs[g].kind.Plugin? && net.gs[g].input == in_ && net.gs[g].group.None?
    && (forall c: nat :: c in net.gs[g].outs <==> own <= c < own + n)
    && forall c :: own <= c < own + n ==> ClosedBy(net.chans[c], buffer, g, g)
  }

  lemma FanOutIs(net: Net, in_: nat, n: nat, buffer: nat)
    requires Inside(net) && NoReader(net, in_) && in_ < |net.chans|
    ensures var fan := FanOutUnit(net, in_, n, buffer);
            && FanOutAt(fan, |net.gs|, in_, |net.chans|, n, buffer)
            && |fan.gs| == |net.gs| + 1 && |fan.chans| == |net.chans| + n && fan.copies == net.copies
            && Adds(net, fan, {in_}) && Inside(fan) && OnlyReader(fan, in_, |net.gs|)
            && forall c :: |net.chans| <= c < |net.chans| + n ==> NoReader(fan, c)
  {
    var fan := FanOutUnit(net, in_, n, buffer);
    forall c: nat ensures c in Range(|net.chans|, n) <==> |net.chans| <= c < |net.chans| + n {
      InRangeBounds(|net.chans|, n, c);
    }
    FirstReader(net, fan, in_, |net.gs|);
    hide Range;
    assert net.chans <= fan.chans by { hide NoReader; }
  }

  lemma FanStands(cfg: Config, copies: nat)
    ensures var fan := BeforeOutput(cfg, copies, 0);
            && |fan.gs| == FanG(cfg) + 1 && |fan.chans| == FanC(cfg) + |cfg.outputs| && Inside(fan)
            && Adds(Joined(cfg, copies), fan, {FanC(cfg) - 1}) && OnlyReader(fan, FanC(cfg) - 1, FanG(cfg))
            && FanOutAt(fan, FanG(cfg), FanC(cfg) - 1, FanC(cfg), |cfg.outputs|, cfg.buffer)
            && forall c :: FanC(cfg) <= c < FanC(cfg) + |cfg.outputs| ==> NoReader(fan, c)
  {
    JoinedStands(cfg, copies);
    assert cfg.outputs[..0] == [];
    hide Joined, FanG, FanC, FanOutUnit, Inside, NoReader, OnlyReader, Adds, FanOutAt;
    FanOutIs(Joined(cfg, copies), FanC(cfg) - 1, |cfg.outputs|, cfg.buffer);
  }

  // ---- The outputs ----

  lemma ShapeIs(cfg: Config, copies: nat)
    ensures Shape(cfg, copies) == BeforeOutput(cfg, copies, |cfg.outputs|)
  {
    JoinedStands(cfg, copies);
    assert cfg.outputs[..|cfg.outputs|] == cfg.outputs;
    hide Front, Middle, OutputUnits, FanOutUnit, FanG, FanC;
  }

  lemma NextOutput(cfg: Config, copies: nat, o: nat)
    requires o < |cfg.outputs|
    ensures BeforeOutput(cfg, copies, o + 1)
         == OutputUnit(BeforeOutput(cfg, copies, o), cfg.outputs[o], FanC(cfg) + o, cfg.buffer)
  {
    JoinedStands(cfg, copies);
    hide Joined, Fanned, FanG, FanC, Inside, Adds, NoReader, FanInAt, OutputUnits, OutputUnit;
    OutputsStep(Fanned(cfg, copies), cfg.outputs, o, |Joined(cfg, copies).chans|, cfg.buffer);
  }

  lemma OneOutput(cfg: Config, copies: nat, o: nat)
    requires o < |cfg.outputs| && Inside(BeforeOutput(cfg, copies, o))
    requires FanC(cfg) + o < |BeforeOutput(cfg, copies, o).chans|
    ensures OutputAdded(BeforeOutput(cfg, copies, o), BeforeOutput(cfg, copies, o + 1), |cfg.outputs[o]|, FanC(cfg) + o,
                        cfg.buffer)
  {
    hide BeforeOutput, OutputUnit, FanC, OutputAdded, Inside;
    NextOutput(cfg, copies, o);
    AddOutput(BeforeOutput(cfg, copies, o), cfg.outputs[o], FanC(cfg) + o, cfg.buffer);
  }

  lemma {:induction false} OutputStands(cfg: Config, copies: nat, o: nat)
    requires o <= |cfg.outputs|
    ensures var net := BeforeOutput(cfg, copies, o);
            |net.gs| == OutputG(cfg, o) && |net.chans| == OutputC(cfg, o) && Inside(net)
  {
    hide BeforeOutput, Inside, FanG, FanC;
    if o == 0 {
      FanStands(cfg, copies);
    } else {
      OutputStands(cfg, copies, o - 1);
      SizesNext(cfg.outputs, o - 1);
      hide Sizes;
      OneOutput(cfg, copies, o - 1);
    }
  }

  lemma {:induction false} OutputsGrow(cfg: Config, copies: nat, o: nat, m: nat)
    requires o <= m <= |cfg.outputs|
    ensures Adds(BeforeOutput(cfg, copies, o), BeforeOutput(cfg, copies, m),
                 Range(FanC(cfg) + o, m - o))
  {
    hide BeforeOutput, FanC, FanG;
    if o < m {
      OutputsGrow(cfg, copies, o, m - 1);
      OutputStands(cfg, copies, m - 1);
      OneOutput(cfg, copies, m - 1);
      hide Adds, Inside;
      InRangeBounds(FanC(cfg) + o, m - o, FanC(cfg) + m - 1);
      Widen(BeforeOutput(cfg, copies, o), BeforeOutput(cfg, copies, m - 1), Range(FanC(cfg) + o, m - 1 - o),
            Range(FanC(cfg) + o, m - o));
      AddsMore(BeforeOutput(cfg, copies, o), BeforeOutput(cfg, copies, m - 1), BeforeOutput(cfg, copies, m),
               Range(FanC(cfg) + o, m - o), {FanC(cfg) + m - 1});
    }
  }

  // ---- Every unit in the whole graph ----

  lemma AfterOutputs(cfg: Config, copies: nat, o: nat)
    requires o <= |cfg.outputs|
    ensures Adds(BeforeOutput(cfg, copies, o), Shape(cfg, copies), Range(FanC(cfg) + o, |cfg.outputs| - o))
  {
    ShapeIs(cfg, copies);
    hide BeforeOutput, Shape, FanC, Adds;
    OutputsGrow(cfg, copies, o, |cfg.outputs|);
  }

  lemma AfterJoined(cfg: Config, copies: nat)
    ensures Adds(Joined(cfg, copies), Shape(cfg, copies), {FanC(cfg) - 1})
  {
    hide Joined, BeforeOutput, Shape, FanC, FanG, Adds, Inside;
    FanStands(cfg, copies);
    AfterOutputs(cfg, copies, 0);
    JoinedStands(cfg, copies);
    forall c <- Range(FanC(cfg), |cfg.outputs|) ensures c >= FanC(cfg) {
      InRangeBounds(FanC(cfg), |cfg.outputs|, c);
    }
    hide Range;
    AddsMore(Joined(cfg, copies), BeforeOutput(cfg, copies, 0), Shape(cfg, copies), {FanC(cfg) - 1},
             Range(FanC(cfg), |cfg.outputs|));
  }

  /** What is still to come after the first l lines reads the merged inputs, what lines send, or what comes itself. */
  lemma AfterLine(cfg: Config, copies: nat, l: nat)
    requires cfg.processors != [] && l <= cfg.lines
    ensures Adds(BeforeLine(cfg, copies, l), Shape(cfg, copies), {MergedC(cfg)} + set c | c in LineCs(cfg))
  {
    JoinedStands(cfg, copies);
    AfterJoined(cfg, copies);
    LinesGrow(cfg, copies, l, cfg.lines);
    LinesInOrder(cfg, l, cfg.lines);
    UnitStands(cfg, copies, l, 0);
    LineBegins(cfg, copies, l);
    var start, lines, joined := BeforeLine(cfg, copies, l), BeforeLine(cfg, copies, cfg.lines), Joined(cfg, copies);
    var ins := {MergedC(cfg)} + set c | c in LineCs(cfg);
    assert FanC(cfg) - 1 >= |start.chans|;
    hide Joined, BeforeLine, Shape, FanC, FanG, UnitC, Adds, MergedC, Inside, LineCs;
    Widen(start, lines, {MergedC(cfg)}, ins);
    AddsMore(start, lines, joined, ins, set c | c in LineCs(cfg));
    AddsMore(start, joined, Shape(cfg, copies), ins, {FanC(cfg) - 1});
  }

  lemma Widen(a: Net, b: Net, ins: set<nat>, more: set<nat>)
    requires Adds(a, b, ins) && ins <= more
    ensures Adds(a, b, more)
  {
  }

  lemma LinesAbove(cfg: Config)
    requires cfg.processors != []
    ensures forall c <- LineCs(cfg) :: c > MergedC(cfg)
  {
    forall c | c in LineCs(cfg) ensures c > MergedC(cfg) {
      var l :| 0 <= l < cfg.lines && c == LineCs(cfg)[l];
      UnitsInOrder(cfg, l, 0, |cfg.processors| - 1);
    }
  }

  lemma AfterMerged(cfg: Config, copies: nat)
    ensures Adds(Merged(cfg, copies), Shape(cfg, copies), {MergedC(cfg)})
  {
    if cfg.processors == [] {
      JoinedStands(cfg, copies);
      AfterJoined(cfg, copies);
      hide Merged, Shape, Joined, Adds, Sizes;
    } else {
      hide Merged, Shape, BeforeLine, LineCs, BeforeProcessor, MergedC, LineOut;
      AfterLine(cfg, copies, 0);
      LineBegins(cfg, copies, 0);
      LinesAbove(cfg);
      MergedSize(cfg, copies);
      Narrow(Merged(cfg, copies), Shape(cfg, copies), {MergedC(cfg)}, set c | c in LineCs(cfg));
    }
  }

  lemma MergedSize(cfg: Config, copies: nat)
    ensures |Merged(cfg, copies).chans| == MergedC(cfg) + 1
  {
    MergedStands(cfg, copies);
  }

  /** What is not there yet need not be told. */
  lemma Narrow(a: Net, b: Net, ins: set<nat>, more: set<nat>)
    requires Adds(a, b, ins + more) && forall c <- more :: c >= |a.chans|
    ensures Adds(a, b, ins)
  {
  }

  lemma FiltersStay(a: Net, b: Net, g: nat, n: nat, in_: nat, rejects: nat, next: nat, buffer: nat)
    requires FiltersAt(a, g, n, in_, rejects, next, buffer) && Within(a, b)
    ensures FiltersAt(b, g, n, in_, rejects, next, buffer)
  {
  }

  /** The lines' units do not send on the same channels. */
  lemma OtherLines(cfg: Config, l: nat, k: nat, c: nat)
    requires k < |cfg.processors| && l < cfg.lines
    requires UnitC(cfg, l, k) <= c < UnitC(cfg, l, k + 1) && (c == UnitC(cfg, l, k) ==> k + 1 < |cfg.processors|)
    ensures c != MergedC(cfg) && c !in LineCs(cfg)
  {
    UnitsInOrder(cfg, l, 0, k);
    forall m | 0 <= m < cfg.lines ensures LineCs(cfg)[m] != c {
      if m < l {
        LineCBelow(cfg, m, l);
      } else if m == l {
        UnitsInOrder(cfg, l, if k + 1 < |cfg.processors| then k + 1 else k, |cfg.processors| - 1);
      } else {
        LineCBelow(cfg, l, m);
      }
    }
  }

  /** A channel of the k-th unit of line l that only x reads when the (m - 1)-th unit has been added, is read by x only
      when the line is complete, and in the whole graph, if it is not what the line sends. */
  lemma OnlyInLine(cfg: Config, copies: nat, l: nat, k: nat, m: nat, c: nat, x: nat)
    requires k < m <= |cfg.processors| && OnlyReader(BeforeProcessor(cfg, copies, l, m), c, x)
    requires UnitC(cfg, l, k) <= c < UnitC(cfg, l, k + 1) && (c == UnitC(cfg, l, k) ==> k + 1 < m)
    ensures OnlyReader(BeforeLine(cfg, copies, l + 1), c, x) && c < |BeforeLine(cfg, copies, l + 1).chans|
  {
    hide BeforeProcessor, BeforeLine, UnitC, UnitG, MergedC, Adds, Inside, OnlyReader, LineOut, Merged;
    LineGrows(cfg, copies, l, m, |cfg.processors|);
    LineBegins(cfg, copies, l);
    UnitStands(cfg, copies, l, m);
    UnitStands(cfg, copies, l, |cfg.processors|);
    UnitsInOrder(cfg, l, k + 1, m);
    UnitsInOrder(cfg, l, m, |cfg.processors|);
    if k + 1 < m {
      UnitsInOrder(cfg, l, k + 1, m - 1);
    }
    StaysOnly(BeforeProcessor(cfg, copies, l, m), BeforeLine(cfg, copies, l + 1), {ProcessorIn(cfg, l, m)}, c, x);
  }

  lemma OnlyFrom(cfg: Config, copies: nat, l: nat, k: nat, m: nat, c: nat, x: nat)
    requires l < cfg.lines && k < m <= |cfg.processors| && OnlyReader(BeforeProcessor(cfg, copies, l, m), c, x)
    requires UnitC(cfg, l, k) <= c < UnitC(cfg, l, k + 1) && (c == UnitC(cfg, l, k) ==> k + 1 < m)
    ensures OnlyReader(Shape(cfg, copies), c, x)
  {
    OnlyInLine(cfg, copies, l, k, m, c, x);
    AfterLine(cfg, copies, l + 1);
    OtherLines(cfg, l, k, c);
    hide BeforeProcessor, BeforeLine, Shape, UnitC, MergedC, LineCs, Adds, OnlyReader;
    StaysOnly(BeforeLine(cfg, copies, l + 1), Shape(cfg, copies), {MergedC(cfg)} + (set i | i in LineCs(cfg)), c, x);
  }
}
