/** Every unit of every configuration in the whole graph: its goroutines with the channels they read and were given,
    what the close of each channel waits for, and the one reader of everything that the unit sends. */
module PipelinePlaces {
  import opened Options
  import opened Graph
  import opened Topology
  import opened PipelineGrowth
  import opened PipelineLayout

  lemma ProcessorStays(a: Net, b: Net, g: nat, own: nat, n: nat, in_: nat, group: Option<nat>, buffer: nat)
    requires ProcessorAt(a, g, own, n, in_, group, buffer) && Within(a, b)
    ensures ProcessorAt(b, g, own, n, in_, group, buffer)
  {
    FiltersStay(a, b, g, n, in_, own, own + 2, buffer);
    hide FiltersAt, ClosedBy;
  }

  lemma InputStays(a: Net, b: Net, g: nat, own: nat, n: nat, buffer: nat)
    requires InputAt(a, g, own, n, buffer) && Within(a, b)
    ensures InputAt(b, g, own, n, buffer)
  {
    FiltersStay(a, b, g + 1, n, own, own + 1, own + 2, buffer);
    hide FiltersAt, ClosedBy;
  }

  lemma OutputStays(a: Net, b: Net, g: nat, own: nat, n: nat, in_: nat, buffer: nat)
    requires OutputAt(a, g, own, n, in_, buffer) && Within(a, b)
    ensures OutputAt(b, g, own, n, in_, buffer)
  {
    FiltersStay(a, b, g, n, in_, own, own + 2, buffer);
    hide FiltersAt, ClosedBy;
  }

  lemma FanInStays(a: Net, b: Net, g: nat, ins: seq<nat>, out: nat, buffer: nat)
    requires FanInAt(a, g, ins, out, buffer) && Within(a, b)
    ensures FanInAt(b, g, ins, out, buffer)
  {
    hide ClosedBy;
  }

  lemma FanOutStays(a: Net, b: Net, g: nat, in_: nat, own: nat, n: nat, buffer: nat)
    requires FanOutAt(a, g, in_, own, n, buffer) && Within(a, b)
    ensures FanOutAt(b, g, in_, own, n, buffer)
  {
    hide ClosedBy;
  }

  // ---- Input units and their fan-in ----

  lemma InputBelowMerged(cfg: Config, i: nat)
    requires i < |cfg.inputs|
    ensures Sizes(cfg.inputs[..i]) + |cfg.inputs[i]| + 2 <= MergedC(cfg) && InputC(cfg, i) < MergedC(cfg)
  {
    InputBelow(cfg, i, |cfg.inputs|);
    assert cfg.inputs[..|cfg.inputs|] == cfg.inputs;
    hide Sizes;
  }

  /** The graph with the i-th input unit as its last one. */
  lemma InputHere(cfg: Config, copies: nat, i: nat)
    requires i < |cfg.inputs|
    ensures var g, n, unit := Sizes(cfg.inputs[..i]), |cfg.inputs[i]|, BeforeInput(cfg, copies, i + 1);
            && InputAt(unit, g, g, n, cfg.buffer) && OnlyReader(unit, g + 1, g + n + 1)
            && |unit.chans| == g + n + 2
  {
    InputsStand(cfg, copies, i);
    OneInput(cfg, copies, i);
    hide BeforeInput, InputAt, OnlyReader, NoReader, Adds, Inside, Sizes, InputC;
  }

  lemma InputInMerged(cfg: Config, copies: nat, i: nat)
    requires i < |cfg.inputs|
    ensures var unit, net := BeforeInput(cfg, copies, i + 1), Merged(cfg, copies);
            Within(unit, net)
  {
    InputsGrow(cfg, copies, i + 1, |cfg.inputs|);
    MergedStands(cfg, copies);
    hide BeforeInput, Merged, FanInAt, NoReader, Inside, Sizes, InputCs, UnitG, UnitC;
  }

  lemma MergedInShape(cfg: Config, copies: nat)
    ensures Within(Merged(cfg, copies), Shape(cfg, copies))
  {
    AfterMerged(cfg, copies);
    hide Merged, Shape, MergedC;
  }

  /** A channel of the i-th input unit that the fan-in does not read. */
  lemma OnlyInInput(cfg: Config, copies: nat, i: nat, c: nat, x: nat)
    requires i < |cfg.inputs| && OnlyReader(BeforeInput(cfg, copies, i + 1), c, x)
    requires c < |BeforeInput(cfg, copies, i + 1).chans| && c !in InputCs(cfg)
    ensures OnlyReader(Merged(cfg, copies), c, x)
  {
    var unit, all := BeforeInput(cfg, copies, i + 1), BeforeInput(cfg, copies, |cfg.inputs|);
    InputsGrow(cfg, copies, i + 1, |cfg.inputs|);
    assert |unit.chans| <= |all.chans|;
    MergedStands(cfg, copies);
    hide BeforeInput, Merged, FanInAt, NoReader, OnlyReader, Inside, Adds, Sizes, InputCs, UnitG, UnitC, MergedC;
    StaysOnly(unit, all, {}, c, x);
    StaysOnly(all, Merged(cfg, copies), (set c | c in InputCs(cfg)), c, x);
  }

  /** A channel that is there when the inputs are merged, and that the lines do not read. */
  lemma OnlyInMerged(cfg: Config, copies: nat, c: nat, x: nat)
    requires OnlyReader(Merged(cfg, copies), c, x) && c < MergedC(cfg)
    ensures OnlyReader(Shape(cfg, copies), c, x)
  {
    MergedSize(cfg, copies);
    AfterMerged(cfg, copies);
    hide Merged, Shape, OnlyReader, Adds, MergedC;
    StaysOnly(Merged(cfg, copies), Shape(cfg, copies), {MergedC(cfg)}, c, x);
  }

  /** No input unit sends its events where another one, or itself, sends rejected ones. */
  lemma RejectsDiffer(cfg: Config, i: nat)
    requires i < |cfg.inputs|
    ensures Sizes(cfg.inputs[..i]) + 1 !in InputCs(cfg)
  {
    forall j | 0 <= j < |cfg.inputs| ensures InputCs(cfg)[j] != Sizes(cfg.inputs[..i]) + 1 {
      if i < j {
        InputBelow(cfg, i, j);
      } else if j < i {
        InputBelow(cfg, j, i);
      }
    }
  }

  /** The i-th input unit in the whole graph. What its filters reject, only its own consumer reads; what leaves it, only
      the i-th goroutine of the fan-in. */
  lemma InputPlace(cfg: Config, copies: nat, i: nat)
    requires i < |cfg.inputs|
    ensures var g, n := Sizes(cfg.inputs[..i]), |cfg.inputs[i]|;
            && InputAt(Shape(cfg, copies), g, g, n, cfg.buffer)
            && OnlyReader(Shape(cfg, copies), g + 1, g + n + 1)
            && OnlyReader(Shape(cfg, copies), if n == 0 then g else g + n + 1, MergedC(cfg) + i)
  {
    hide BeforeInput, Merged, Shape, OnlyReader, Sizes, InputAt, InputCs, MergedC;
    var g, n, unit := Sizes(cfg.inputs[..i]), |cfg.inputs[i]|, BeforeInput(cfg, copies, i + 1);
    InputHere(cfg, copies, i);
    RejectsDiffer(cfg, i);
    InputIsMerged(cfg, copies, i);
    InputBelowMerged(cfg, i);
    OnlyInInput(cfg, copies, i, g + 1, g + n + 1);
    OnlyInMerged(cfg, copies, g + 1, g + n + 1);
    OnlyInMerged(cfg, copies, InputC(cfg, i), MergedC(cfg) + i);
    InputInMerged(cfg, copies, i);
    MergedInShape(cfg, copies);
    hide Within;
    InputStays(unit, Merged(cfg, copies), g, g, n, cfg.buffer);
    InputStays(Merged(cfg, copies), Shape(cfg, copies), g, g, n, cfg.buffer);
  }

  // ---- Processor units ----

  lemma UnitInShape(cfg: Config, copies: nat, l: nat, k: nat)
    requires l < cfg.lines && k < |cfg.processors|
    ensures var unit, whole := BeforeProcessor(cfg, copies, l, k + 1), Shape(cfg, copies);
            Within(unit, whole)
  {
    LineGrows(cfg, copies, l, k + 1, |cfg.processors|);
    LineBegins(cfg, copies, l);
    AfterLine(cfg, copies, l + 1);
    var unit, line, whole := BeforeProcessor(cfg, copies, l, k + 1), BeforeLine(cfg, copies, l + 1), Shape(cfg, copies);
    AddsWithin(unit, line, {ProcessorIn(cfg, l, k + 1)});
    AddsWithin(line, whole, {MergedC(cfg)} + set c | c in LineCs(cfg));
    hide BeforeProcessor, BeforeLine, Shape, MergedC, LineCs, UnitC, UnitG, Merged, LineOut, Adds;
  }

  /** The graph with the k-th unit of line l as its last one. */
  lemma UnitHere(cfg: Config, copies: nat, l: nat, k: nat)
    requires k < |cfg.processors|
    ensures var g, own, n, unit := UnitG(cfg, l, k), UnitC(cfg, l, k), |cfg.processors[k].filters|,
                                   BeforeProcessor(cfg, copies, l, k + 1);
            && ProcessorAt(unit, g, own, n, ProcessorIn(cfg, l, k), if cfg.processors[k].mixer then Some(k) else None,
                           cfg.buffer)
            && OnlyReader(unit, own + 1, g + n + 1)
  {
    UnitStands(cfg, copies, l, k);
    OneProcessor(cfg, copies, l, k);
    hide BeforeProcessor, BeforeLine, Merged, UnitC, UnitG, LineOut, Inside, ProcessorAt, OnlyReader, NoReader, Adds;
  }

  /** Within a line, the next unit is the only reader of what a unit sends. */
  lemma NextReads(cfg: Config, copies: nat, l: nat, k: nat)
    requires l < cfg.lines && k + 1 < |cfg.processors|
    ensures OnlyReader(Shape(cfg, copies), UnitC(cfg, l, k), UnitG(cfg, l, k + 1))
  {
    var unit, next := BeforeProcessor(cfg, copies, l, k + 1), BeforeProcessor(cfg, copies, l, k + 2);
    UnitStands(cfg, copies, l, k);
    OneProcessor(cfg, copies, l, k);
    UnitStands(cfg, copies, l, k + 1);
    OneProcessor(cfg, copies, l, k + 1);
    UnitsInOrder(cfg, l, k, k + 1);
    hide BeforeProcessor, BeforeLine, Shape, Merged, UnitC, UnitG, LineOut, Inside, ProcessorAt, OnlyReader, NoReader;
    FirstReader(unit, next, UnitC(cfg, l, k), UnitG(cfg, l, k + 1));
    OnlyFrom(cfg, copies, l, k, k + 2, UnitC(cfg, l, k), UnitG(cfg, l, k + 1));
  }

  /** The l-th goroutine of the fan-in is the only reader of what the last unit of line l sends. */
  lemma WorkerReadsLine(cfg: Config, copies: nat, l: nat)
    requires l < cfg.lines && cfg.processors != []
    ensures OnlyReader(Shape(cfg, copies), UnitC(cfg, l, |cfg.processors| - 1), UnitG(cfg, cfg.lines, 0) + l)
  {
    hide BeforeLine, Shape, Joined, UnitC, UnitG, LineCs, Inside, OnlyReader, NoReader, FanInUnit, Adds, FanInAt;
    var k, c := |cfg.processors| - 1, UnitC(cfg, l, |cfg.processors| - 1);
    LineUnread(cfg, copies, l);
    JoinedIs(cfg, copies);
    JoinedStands(cfg, copies);
    AfterJoined(cfg, copies);
    LineCBelow(cfg, l, cfg.lines);
    forall m | 0 <= m < cfg.lines && m != l ensures LineCs(cfg)[m] != LineCs(cfg)[l] {
      if m < l { LineCBelow(cfg, m, l); } else { LineCBelow(cfg, l, m); }
    }
    WorkerReads(BeforeLine(cfg, copies, cfg.lines), LineCs(cfg), cfg.buffer, l);
    StaysOnly(Joined(cfg, copies), Shape(cfg, copies), {FanC(cfg) - 1}, c, UnitG(cfg, cfg.lines, 0) + l);
  }

  lemma LineUnread(cfg: Config, copies: nat, l: nat)
    requires l < cfg.lines && cfg.processors != []
    ensures NoReader(BeforeLine(cfg, copies, cfg.lines), UnitC(cfg, l, |cfg.processors| - 1))
  {
    hide BeforeProcessor, BeforeLine, Merged, UnitC, UnitG, LineOut, Inside, ProcessorAt, OnlyReader, NoReader, Adds;
    var k, c := |cfg.processors| - 1, UnitC(cfg, l, |cfg.processors| - 1);
    UnitStands(cfg, copies, l, k);
    OneProcessor(cfg, copies, l, k);
    LineBegins(cfg, copies, l);
    LinesGrow(cfg, copies, l + 1, cfg.lines);
    UnitsInOrder(cfg, l, 0, k);
    StaysUnread(BeforeLine(cfg, copies, l + 1), BeforeLine(cfg, copies, cfg.lines), {MergedC(cfg)}, c);
  }

  /** The k-th processor unit of line l in the whole graph. It reads the merged inputs or what the unit before sends.
      What is dropped, only its own consumer reads; what it sends, only the next unit of the line or, for the last
      one, the l-th goroutine of the fan-in behind the lines. */
  lemma ProcessorPlace(cfg: Config, copies: nat, l: nat, k: nat)
    requires l < cfg.lines && k < |cfg.processors|
    ensures var g, own, n := UnitG(cfg, l, k), UnitC(cfg, l, k), |cfg.processors[k].filters|;
            && ProcessorAt(Shape(cfg, copies), g, own, n, if k == 0 then MergedC(cfg) else UnitC(cfg, l, k - 1),
                           if cfg.processors[k].mixer then Some(k) else None, cfg.buffer)
            && OnlyReader(Shape(cfg, copies), own + 1, g + n + 1)
            && OnlyReader(Shape(cfg, copies), own,
                          if k + 1 < |cfg.processors| then UnitG(cfg, l, k + 1) else UnitG(cfg, cfg.lines, 0) + l)
  {
    hide BeforeProcessor, Shape, UnitC, UnitG, ProcessorAt, OnlyReader, MergedC, Within;
    var g, own, n := UnitG(cfg, l, k), UnitC(cfg, l, k), |cfg.processors[k].filters|;
    var group := if cfg.processors[k].mixer then Some(k) else None;
    UnitHere(cfg, copies, l, k);
    UnitInShape(cfg, copies, l, k);
    UnitsInOrder(cfg, l, k, k);
    if k + 1 < |cfg.processors| { NextReads(cfg, copies, l, k); } else { WorkerReadsLine(cfg, copies, l); }
    OnlyFrom(cfg, copies, l, k, k + 1, own + 1, g + n + 1);
    ProcessorStays(BeforeProcessor(cfg, copies, l, k + 1), Shape(cfg, copies), g, own, n, ProcessorIn(cfg, l, k), group,
                   cfg.buffer);
  }

  // ---- The fan-ins, the fan-out and the output units ----

  lemma MergePlace(cfg: Config, copies: nat)
    ensures FanInAt(Shape(cfg, copies), MergedC(cfg), InputCs(cfg), MergedC(cfg), cfg.buffer)
  {
    MergedStands(cfg, copies);
    AfterMerged(cfg, copies);
    hide Shape, Merged, BeforeInput, UnitC, UnitG, InputCs, Inside, NoReader, FanInAt, MergedC;
    FanInStays(Merged(cfg, copies), Shape(cfg, copies), MergedC(cfg), InputCs(cfg), MergedC(cfg), cfg.buffer);
  }

  lemma JoinPlace(cfg: Config, copies: nat)
    requires cfg.processors != []
    ensures FanInAt(Shape(cfg, copies), UnitG(cfg, cfg.lines, 0), LineCs(cfg), FanC(cfg) - 1, cfg.buffer)
  {
    hide Shape, Merged, Joined, BeforeLine, UnitC, UnitG, FanC, FanG, LineCs, Inside, NoReader, FanInAt;
    JoinedStands(cfg, copies);
    AfterJoined(cfg, copies);
    FanInStays(Joined(cfg, copies), Shape(cfg, copies), UnitG(cfg, cfg.lines, 0), LineCs(cfg), FanC(cfg) - 1,
      cfg.buffer);
  }

  /** The fan-out, which alone reads what is merged last. */
  lemma FanOutPlace(cfg: Config, copies: nat)
    ensures FanOutAt(Shape(cfg, copies), FanG(cfg), FanC(cfg) - 1, FanC(cfg), |cfg.outputs|, cfg.buffer)
    ensures OnlyReader(Shape(cfg, copies), FanC(cfg) - 1, FanG(cfg))
  {
    hide BeforeOutput, Shape, Joined, FanC, FanG, Inside, OnlyReader, NoReader, FanOutAt, Adds, Range;
    var fan := BeforeOutput(cfg, copies, 0);
    FanStands(cfg, copies);
    AfterOutputs(cfg, copies, 0);
    InRangeBounds(FanC(cfg), |cfg.outputs|, FanC(cfg) - 1);
    AddsWithin(fan, Shape(cfg, copies), Range(FanC(cfg) + 0, |cfg.outputs| - 0));
    FanOutStays(fan, Shape(cfg, copies), FanG(cfg), FanC(cfg) - 1, FanC(cfg), |cfg.outputs|, cfg.buffer);
    StaysOnly(fan, Shape(cfg, copies), Range(FanC(cfg), |cfg.outputs|), FanC(cfg) - 1, FanG(cfg));
  }

  /** The graph with the o-th output unit as its last one. */
  lemma OutputHere(cfg: Config, copies: nat, o: nat)
    requires o < |cfg.outputs|
    ensures var g, own, n, unit := OutputG(cfg, o), OutputC(cfg, o), |cfg.outputs[o]|, BeforeOutput(cfg, copies, o + 1);
            && OutputAt(unit, g, own, n, FanC(cfg) + o, cfg.buffer)
            && OnlyReader(unit, own, g + n + 1) && OnlyReader(unit, own + 1, g + n + 2)
            && |unit.chans| == own + n + 2
  {
    OutputStands(cfg, copies, o);
    OneOutput(cfg, copies, o);
    hide BeforeOutput, FanC, FanG, Inside, OnlyReader, NoReader, OutputAt, Adds, Sizes;
  }

  lemma OutputReads(cfg: Config, copies: nat, o: nat)
    requires o < |cfg.outputs|
    ensures OnlyReader(BeforeOutput(cfg, copies, o + 1), FanC(cfg) + o, OutputG(cfg, o))
  {
    hide BeforeOutput, FanC, FanG, Inside, OnlyReader, NoReader, OutputAt, Adds, Sizes, OutputG;
    OutputStands(cfg, copies, o);
    OneOutput(cfg, copies, o);
    FanUnread(cfg, copies, o);
    OutputGrew(cfg, copies, o);
    FirstReader(BeforeOutput(cfg, copies, o), BeforeOutput(cfg, copies, o + 1), FanC(cfg) + o, OutputG(cfg, o));
  }

  lemma OutputGrew(cfg: Config, copies: nat, o: nat)
    requires o < |cfg.outputs|
    ensures BeforeOutput(cfg, copies, o).gs <= BeforeOutput(cfg, copies, o + 1).gs
  {
    OutputsGrow(cfg, copies, o, o + 1);
    hide BeforeOutput, FanC, Range;
  }

  lemma FanUnread(cfg: Config, copies: nat, o: nat)
    requires o < |cfg.outputs|
    ensures NoReader(BeforeOutput(cfg, copies, o), FanC(cfg) + o)
  {
    hide BeforeOutput, FanC, FanG, Inside, OnlyReader, NoReader, FanOutAt, Adds, Range, Joined;
    FanStands(cfg, copies);
    OutputsGrow(cfg, copies, 0, o);
    InRangeBounds(FanC(cfg), o, FanC(cfg) + o);
    StaysUnread(BeforeOutput(cfg, copies, 0), BeforeOutput(cfg, copies, o), Range(FanC(cfg) + 0, o - 0), FanC(cfg) + o);
  }

  /** A channel that the output units from the o-th on do not read. */
  lemma OnlyInOutput(cfg: Config, copies: nat, o: nat, c: nat, x: nat)
    requires o <= |cfg.outputs| && OnlyReader(BeforeOutput(cfg, copies, o), c, x)
    requires c < |BeforeOutput(cfg, copies, o).chans|
    requires c < FanC(cfg) + o || c >= FanC(cfg) + |cfg.outputs|
    ensures OnlyReader(Shape(cfg, copies), c, x)
  {
    AfterOutputs(cfg, copies, o);
    InRangeBounds(FanC(cfg) + o, |cfg.outputs| - o, c);
    hide BeforeOutput, Shape, FanC, OnlyReader, Adds, Range;
    StaysOnly(BeforeOutput(cfg, copies, o), Shape(cfg, copies), Range(FanC(cfg) + o, |cfg.outputs| - o), c, x);
  }

  /** The o-th output unit in the whole graph: it alone reads the o-th output of the fan-out, and what it rejects and
      what it has done only its own two consumers read. */
  lemma OutputPlace(cfg: Config, copies: nat, o: nat)
    requires o < |cfg.outputs|
    ensures var g, own, n := OutputG(cfg, o), OutputC(cfg, o), |cfg.outputs[o]|;
            && OutputAt(Shape(cfg, copies), g, own, n, FanC(cfg) + o, cfg.buffer)
            && OnlyReader(Shape(cfg, copies), own, g + n + 1) && OnlyReader(Shape(cfg, copies), own + 1, g + n + 2)
            && OnlyReader(Shape(cfg, copies), FanC(cfg) + o, g)
  {
    hide BeforeOutput, Shape, FanC, FanG, OnlyReader, OutputAt, Adds, Range, Sizes, Within;
    var g, own, n := OutputG(cfg, o), OutputC(cfg, o), |cfg.outputs[o]|;
    var unit := BeforeOutput(cfg, copies, o + 1);
    OutputHere(cfg, copies, o);
    OutputReads(cfg, copies, o);
    AfterOutputs(cfg, copies, o + 1);
    AddsWithin(unit, Shape(cfg, copies), Range(FanC(cfg) + (o + 1), |cfg.outputs| - (o + 1)));
    OutputStays(unit, Shape(cfg, copies), g, own, n, FanC(cfg) + o, cfg.buffer);
    OnlyInOutput(cfg, copies, o + 1, own, g + n + 1);
    OnlyInOutput(cfg, copies, o + 1, own + 1, g + n + 2);
    OnlyInOutput(cfg, copies, o + 1, FanC(cfg) + o, g);
  }
}
