/** In every run of the whole graph of every configuration, every processor and output unit conserves the events. */
module PipelineUnits {
  import opened Options
  import opened Graph
  import opened Topology
  import opened GraphFlow
  import opened Certification
  import opened PipelineGrowth
  import opened PipelineLayout
  import opened PipelinePlaces

  lemma FiltersAre(net: Net, whole: Net, n: nat, in_: nat, buffer: nat)
    requires FiltersAt(whole, |net.gs|, n, in_, |net.chans|, |net.chans| + 2, buffer)
    ensures forall i :: |net.gs| <= i < |net.gs| + n ==> whole.gs[i] == NthFilter(in_, |net.chans|, i - |net.gs|)
  {
  }

  /** Every processor unit of every line is a unit of the whole graph. */
  lemma ProcessorInShape(cfg: Config, copies: nat, l: nat, k: nat)
    requires l < cfg.lines && k < |cfg.processors|
    ensures HasUnit(BeforeProcessor(cfg, copies, l, k), Shape(cfg, copies), |cfg.processors[k].filters|,
                    ProcessorIn(cfg, l, k))
    ensures ProcessorIn(cfg, l, k) < |BeforeProcessor(cfg, copies, l, k).chans|
  {
    hide BeforeProcessor, Shape, UnitC, UnitG, MergedC, Merged, BeforeLine, LineOut, Inside, OnlyReader, FiltersAt;
    ProcessorPlace(cfg, copies, l, k);
    UnitStands(cfg, copies, l, k);
    UnitsInOrder(cfg, l, k, k);
    if k > 0 {
      UnitsInOrder(cfg, l, k - 1, k);
    }
    FiltersAre(BeforeProcessor(cfg, copies, l, k), Shape(cfg, copies), |cfg.processors[k].filters|,
               ProcessorIn(cfg, l, k), cfg.buffer);
    FiltersFit(Shape(cfg, copies), UnitG(cfg, l, k), |cfg.processors[k].filters|, ProcessorIn(cfg, l, k),
               UnitC(cfg, l, k), UnitC(cfg, l, k) + 2, cfg.buffer);
  }

  lemma FiltersFit(net: Net, g: nat, n: nat, in_: nat, rejects: nat, next: nat, buffer: nat)
    requires FiltersAt(net, g, n, in_, rejects, next, buffer)
    ensures g + n <= |net.gs| && next + n <= |net.chans|
  {
  }

  /** Every output unit is a unit of the whole graph. */
  lemma OutputInShape(cfg: Config, copies: nat, i: nat)
    requires i < |cfg.outputs|
    ensures HasUnit(BeforeOutput(cfg, copies, i), Shape(cfg, copies), |cfg.outputs[i]|, FanC(cfg) + i)
    ensures FanC(cfg) + i < |BeforeOutput(cfg, copies, i).chans|
  {
    hide BeforeOutput, Shape, FanC, FanG, Inside, OnlyReader, FiltersAt, Sizes;
    OutputPlace(cfg, copies, i);
    OutputStands(cfg, copies, i);
    FiltersAre(BeforeOutput(cfg, copies, i), Shape(cfg, copies), |cfg.outputs[i]|, FanC(cfg) + i, cfg.buffer);
    FiltersFit(Shape(cfg, copies), OutputG(cfg, i), |cfg.outputs[i]|, FanC(cfg) + i, OutputC(cfg, i),
               OutputC(cfg, i) + 2, cfg.buffer);
  }

  // ---- Conservation in every unit of a pipeline ----

  /** What a unit's filters and plugin have taken in is what they have given out, one for one, and nothing is left in
      the channels between them. */
  ghost predicate UnitBalances(net: Net, whole: Net, n: nat, trace: seq<State>, steps: seq<Step>, k: nat)
    requires Run(whole, trace, steps) && k <= |steps|
  {
    && (forall c :: |net.chans| + 2 <= c < |net.chans| + 2 + n ==> c < |trace[k].queues| && trace[k].queues[c] == [])
    && multiset(Entered(whole, trace, steps, k, UnitPart(net, n)))
      == multiset(Left(whole, trace, steps, k, UnitPart(net, n)))
  }

  /** For every configuration with an output and a line, in every run of its graph: a processor unit whose filters and
      processor have returned has given out, on `out` or `drop`, or, as a mixer, on the output of another line's mixer,
      exactly the events that it read from its input and that were made in it. */
  lemma ProcessorConserves(cfg: Config, copies: nat, l: nat, p: nat, trace: seq<State>, steps: seq<Step>, k: nat)
    requires cfg.outputs != [] && l < cfg.lines && p < |cfg.processors|
    requires Run(Shape(cfg, copies), trace, steps) && k <= |steps|
    requires var g, n := |BeforeProcessor(cfg, copies, l, p).gs|, |cfg.processors[p].filters|;
             forall j :: g <= j <= g + n ==> j < |trace[k].exited| && trace[k].exited[j]
    ensures UnitBalances(BeforeProcessor(cfg, copies, l, p), Shape(cfg, copies), |cfg.processors[p].filters|, trace,
            steps, k)
  {
    ProcessorInShape(cfg, copies, l, p);
    var cert := ShapeIsCertified(cfg, copies);
    hide Shape, BeforeProcessor, ProcessorIn, MergedC, UnitC;
    Balances(BeforeProcessor(cfg, copies, l, p), Shape(cfg, copies), cert, |cfg.processors[p].filters|,
             ProcessorIn(cfg, l, p), trace, steps, k);
  }

  /** The same for every output unit, which gives out what it read as rejected or done. */
  lemma OutputConserves(cfg: Config, copies: nat, i: nat, trace: seq<State>, steps: seq<Step>, k: nat)
    requires i < |cfg.outputs| && cfg.lines >= 1
    requires Run(Shape(cfg, copies), trace, steps) && k <= |steps|
    requires var g, n := |BeforeOutput(cfg, copies, i).gs|, |cfg.outputs[i]|;
             forall j :: g <= j <= g + n ==> j < |trace[k].exited| && trace[k].exited[j]
    ensures UnitBalances(BeforeOutput(cfg, copies, i), Shape(cfg, copies), |cfg.outputs[i]|, trace, steps, k)
  {
    OutputInShape(cfg, copies, i);
    var cert := ShapeIsCertified(cfg, copies);
    hide Shape, BeforeOutput, FanC;
    Balances(BeforeOutput(cfg, copies, i), Shape(cfg, copies), cert, |cfg.outputs[i]|,
             FanC(cfg) + i, trace, steps, k);
  }

  lemma Balances(net: Net, whole: Net, cert: Certificate, n: nat, in_: nat, trace: seq<State>, steps: seq<Step>, k: nat)
    requires HasUnit(net, whole, n, in_) && in_ < |net.chans| && Certified(whole, cert)
    requires Run(whole, trace, steps) && k <= |steps|
    requires forall j :: |net.gs| <= j <= |net.gs| + n ==> j < |trace[k].exited| && trace[k].exited[j]
    ensures UnitBalances(net, whole, n, trace, steps, k)
  {
    assert |net.chans| + 2 + n <= |whole.chans| == |trace[k].queues|;
    UnitConserves(net, whole, cert, trace, steps, k, n, in_);
  }
}
