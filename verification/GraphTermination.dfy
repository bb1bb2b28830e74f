/** Termination of certified networks: one natural number decreases in every step but the emission of a new
    event by an input, for any number of goroutines, any channel capacities and any bound on copies. */
module GraphTermination {
  import opened Sums
  import opened Graph

  /** a times w, by repeated addition. */
  function Times(a: nat, w: nat): nat {
    if a == 0 then 0 else Times(a - 1, w) + w
  }

  lemma {:induction false} TimesPlus(a: nat, b: nat, w: nat)
    ensures Times(a + b, w) == Times(a, w) + Times(b, w)
  {
    if b > 0 {
      TimesPlus(a, b - 1, w);
    }
  }

  lemma {:induction false} TimesGrows(k: nat, a: nat, b: nat)
    requires a <= b
    ensures Times(k, a) <= Times(k, b)
  {
    if k > 0 {
      TimesGrows(k - 1, a, b);
    }
  }

  /** The work an event in the hands of a goroutine can still cause, by the goroutine's distance d from the end:
      one step in hand, then everything it causes in a channel closer to the end. */
  function HandWork(d: nat, copies: nat): (w: nat)
    ensures w >= 1
    decreases d, 0
  {
    if d == 0 then 1 else ChanWork(d - 1, copies) + 1
  }

  /** In a channel: to be received, and then carried, with all the copies that may be made of it. */
  function ChanWork(d: nat, copies: nat): nat
    decreases d, 1
  {
    HandWork(d, copies) + Times(copies, HandWork(d, copies) + 1) + 1
  }

  lemma {:induction false} WorkGrows(d: nat, e: nat, copies: nat)
    requires d <= e
    ensures HandWork(d, copies) <= HandWork(e, copies)
    ensures ChanWork(d, copies) <= ChanWork(e, copies)
    decreases e
  {
    if d < e {
      WorkGrows(d, e - 1, copies);
      assert HandWork(e, copies) == ChanWork(e - 1, copies) + 1;
    }
    TimesGrows(copies, HandWork(d, copies) + 1, HandWork(e, copies) + 1);
  }

  function HandDistance(cert: Certificate, g: nat): nat {
    if g < |cert.grank| then Top(cert) - cert.grank[g] else 0
  }

  function ChanDistance(cert: Certificate, c: nat): nat {
    if c < |cert.crank| then Top(cert) - cert.crank[c] else 0
  }

  function HW(net: Net, cert: Certificate, g: nat): (w: nat)
    ensures w >= 1
  {
    HandWork(HandDistance(cert, g), net.copies)
  }

  function QW(net: Net, cert: Certificate, c: nat): nat {
    ChanWork(ChanDistance(cert, c), net.copies)
  }

  function QueueLoad(net: Net, cert: Certificate, s: State): nat -> nat {
    (c: nat) => if c < |s.queues| then Times(|s.queues[c]|, QW(net, cert, c)) else 0
  }

  function HandCost(events: nat, budget: nat, w: nat): nat {
    Times(events, w) + Times(budget, w + 1)
  }

  function HandLoad(net: Net, cert: Certificate, s: State): nat -> nat {
    (g: nat) => if g < |s.hands| && g < |s.budget| then HandCost(|s.hands[g]|, s.budget[g], HW(net, cert, g)) else 0
  }

  function Running(s: State): nat -> nat {
    (g: nat) => if g < |s.exited| && !s.exited[g] then 1 else 0
  }

  function Closable(net: Net, s: State): nat -> nat {
    (c: nat) => if c < |s.closed| && c < |net.chans| && s.closed[c] < |net.chans[c].closes|
                then |net.chans[c].closes| - s.closed[c] else 0
  }

  /** The steps the network can still take before an input emits again. */
  function Measure(net: Net, cert: Certificate, s: State): nat {
    Sum(|s.queues|, QueueLoad(net, cert, s)) + Sum(|s.hands|, HandLoad(net, cert, s))
      + Sum(|s.exited|, Running(s)) + Sum(|s.closed|, Closable(net, s))
      + (match s.phase case Running => 2 case Stopping => 1 case Stopped => 0)
  }

  /** A channel event costs less than the hand it came from, and more than the hand and budget it turns into. */
  lemma WorkDown(net: Net, cert: Certificate, g: nat, c: nat)
    requires Certified(net, cert) && g < |net.gs| && c < |net.chans|
    ensures cert.grank[g] < cert.crank[c] ==> QW(net, cert, c) < HW(net, cert, g)
    ensures cert.crank[c] <= cert.grank[g] ==>
              HW(net, cert, g) + Times(net.copies, HW(net, cert, g) + 1) < QW(net, cert, c)
  {
    var dg, dc := HandDistance(cert, g), ChanDistance(cert, c);
    if cert.grank[g] < cert.crank[c] {
      WorkGrows(dc, dg - 1, net.copies);
    } else {
      WorkGrows(dg, dc, net.copies);
    }
  }

  lemma QueueLoadChange(net: Net, cert: Certificate, s: State, s': State, c: nat)
    requires c < |s.queues| == |s'.queues| && s'.queues == s.queues[c := s'.queues[c]]
    ensures Sum(|s.queues|, QueueLoad(net, cert, s')) + Times(|s.queues[c]|, QW(net, cert, c))
         == Sum(|s.queues|, QueueLoad(net, cert, s)) + Times(|s'.queues[c]|, QW(net, cert, c))
  {
    SumChange(|s.queues|, QueueLoad(net, cert, s), QueueLoad(net, cert, s'), c);
  }

  lemma HandLoadChange(net: Net, cert: Certificate, s: State, s': State, g: nat)
    requires g < |s.hands| == |s'.hands| == |s.budget| == |s'.budget|
    requires s'.hands == s.hands[g := s'.hands[g]] && s'.budget == s.budget[g := s'.budget[g]]
    ensures Sum(|s.hands|, HandLoad(net, cert, s')) + HandCost(|s.hands[g]|, s.budget[g], HW(net, cert, g))
         == Sum(|s.hands|, HandLoad(net, cert, s)) + HandCost(|s'.hands[g]|, s'.budget[g], HW(net, cert, g))
  {
    SumChange(|s.hands|, HandLoad(net, cert, s), HandLoad(net, cert, s'), g);
  }

  lemma QueuesSame(net: Net, cert: Certificate, s: State, s': State)
    requires s.queues == s'.queues
    ensures Sum(|s.queues|, QueueLoad(net, cert, s)) == Sum(|s.queues|, QueueLoad(net, cert, s'))
  {
    SumSame(|s.queues|, QueueLoad(net, cert, s), QueueLoad(net, cert, s'));
  }

  lemma HandsSame(net: Net, cert: Certificate, s: State, s': State)
    requires s.hands == s'.hands && s.budget == s'.budget
    ensures Sum(|s.hands|, HandLoad(net, cert, s)) == Sum(|s.hands|, HandLoad(net, cert, s'))
  {
    SumSame(|s.hands|, HandLoad(net, cert, s), HandLoad(net, cert, s'));
  }

  lemma FlagsSame(net: Net, s: State, s': State)
    requires s.exited == s'.exited && s.closed == s'.closed
    ensures Sum(|s.exited|, Running(s)) == Sum(|s.exited|, Running(s'))
    ensures Sum(|s.closed|, Closable(net, s)) == Sum(|s.closed|, Closable(net, s'))
  {
    SumSame(|s.exited|, Running(s), Running(s'));
    SumSame(|s.closed|, Closable(net, s), Closable(net, s'));
  }

  ghost predicate SameFlags(s: State, s': State) {
    s.exited == s'.exited && s.closed == s'.closed && s.phase == s'.phase
  }

  /** A hand shrinks by an event, or grows by one at the cost of one unit of budget. */
  lemma HandStepDown(net: Net, cert: Certificate, s: State, s': State, g: nat)
    requires g < |s.hands| == |s'.hands| == |s.budget| == |s'.budget| && SameFlags(s, s') && s'.queues == s.queues
    requires s'.hands == s.hands[g := s'.hands[g]] && s'.budget == s.budget[g := s'.budget[g]]
    requires (|s'.hands[g]| + 1 == |s.hands[g]| && s'.budget[g] == s.budget[g])
          || (|s'.hands[g]| == |s.hands[g]| + 1 && s'.budget[g] + 1 == s.budget[g])
    ensures Measure(net, cert, s') < Measure(net, cert, s)
  {
    hide HandLoad, QueueLoad, HW, QW, Running, Closable;
    QueuesSame(net, cert, s, s');
    FlagsSame(net, s, s');
    HandLoadChange(net, cert, s, s', g);
  }

  /** An event moves from a hand to a channel that costs less. */
  lemma SendDown(net: Net, cert: Certificate, s: State, s': State, g: nat, c: nat)
    requires g < |s.hands| == |s'.hands| == |s.budget| && SameFlags(s, s') && s'.budget == s.budget
    requires c < |s.queues| == |s'.queues| && s'.queues == s.queues[c := s'.queues[c]]
    requires s'.hands == s.hands[g := s'.hands[g]]
    requires |s'.hands[g]| + 1 == |s.hands[g]| && |s'.queues[c]| == |s.queues[c]| + 1
    requires QW(net, cert, c) < HW(net, cert, g)
    ensures Measure(net, cert, s') < Measure(net, cert, s)
  {
    hide HandLoad, QueueLoad, HW, QW, Running, Closable;
    FlagsSame(net, s, s');
    HandLoadChange(net, cert, s, s', g);
    QueueLoadChange(net, cert, s, s', c);
  }

  /** An event moves from a channel to a hand, and brings budget for copies. */
  lemma ReceiveDown(net: Net, cert: Certificate, s: State, s': State, g: nat, c: nat)
    requires g < |s.hands| == |s'.hands| == |s.budget| == |s'.budget| && SameFlags(s, s')
    requires c < |s.queues| == |s'.queues| && s'.queues == s.queues[c := s'.queues[c]]
    requires s'.hands == s.hands[g := s'.hands[g]] && s'.budget == s.budget[g := s.budget[g] + net.copies]
    requires |s'.hands[g]| == |s.hands[g]| + 1 && |s'.queues[c]| + 1 == |s.queues[c]|
    requires HW(net, cert, g) + Times(net.copies, HW(net, cert, g) + 1) < QW(net, cert, c)
    ensures Measure(net, cert, s') < Measure(net, cert, s)
  {
    hide HandLoad, QueueLoad, HW, QW, Running, Closable;
    FlagsSame(net, s, s');
    HandLoadChange(net, cert, s, s', g);
    QueueLoadChange(net, cert, s, s', c);
    TimesPlus(s.budget[g], net.copies, HW(net, cert, g) + 1);
  }

  lemma HandsHandoff(net: Net, cert: Certificate, s: State, s': State, g: nat, r: nat)
    requires g < |s.hands| == |s'.hands| == |s.budget| == |s'.budget| && r < |s.hands| && r != g
    requires s'.hands == s.hands[g := s'.hands[g]][r := s'.hands[r]] && s'.budget == s.budget[r := s'.budget[r]]
    ensures Sum(|s.hands|, HandLoad(net, cert, s'))
              + HandCost(|s.hands[g]|, s.budget[g], HW(net, cert, g))
                + HandCost(|s.hands[r]|, s.budget[r], HW(net, cert, r))
         == Sum(|s.hands|, HandLoad(net, cert, s))
              + HandCost(|s'.hands[g]|, s.budget[g], HW(net, cert, g))
                + HandCost(|s'.hands[r]|, s'.budget[r], HW(net, cert, r))
  {
    hide HandLoad, HW, HandCost;
    var s1 := s.(hands := s.hands[g := s'.hands[g]]);
    HandLoadChange(net, cert, s, s1, g);
    HandLoadChange(net, cert, s1, s', r);
  }

  /** An event moves from one hand to another through an unbuffered channel. */
  lemma HandoffDown(net: Net, cert: Certificate, s: State, s': State, g: nat, r: nat)
    requires g < |s.hands| == |s'.hands| == |s.budget| == |s'.budget| && r < |s.hands| && r != g
    requires SameFlags(s, s') && s'.queues == s.queues
    requires s'.hands == s.hands[g := s'.hands[g]][r := s'.hands[r]]
    requires s'.budget == s.budget[r := s.budget[r] + net.copies]
    requires |s'.hands[g]| + 1 == |s.hands[g]| && |s'.hands[r]| == |s.hands[r]| + 1
    requires HW(net, cert, r) + Times(net.copies, HW(net, cert, r) + 1) < HW(net, cert, g)
    ensures Measure(net, cert, s') < Measure(net, cert, s)
  {
    hide HandLoad, QueueLoad, HW, QW, Running, Closable;
    QueuesSame(net, cert, s, s');
    FlagsSame(net, s, s');
    HandsHandoff(net, cert, s, s', g, r);
    var w := HW(net, cert, r);
    TimesPlus(s.budget[r], net.copies, w + 1);
    assert Times(|s'.hands[r]|, w) == Times(|s.hands[r]|, w) + w;
    assert Times(|s.hands[g]|, HW(net, cert, g)) == Times(|s'.hands[g]|, HW(net, cert, g)) + HW(net, cert, g);
  }

  lemma SenderBelow(net: Net, cert: Certificate, s: State, g: nat, via: nat, c: nat)
    requires Certified(net, cert) && Fits(net, s) && MaySend(net, s, g, via, c)
    ensures cert.grank[g] < cert.crank[c]
  {
    assert GoroutineOk(net, cert, via) && GoroutineOk(net, cert, g);
  }

  lemma TransferDown(net: Net, cert: Certificate, s: State, st: Step)
    requires Certified(net, cert) && Fits(net, s) && Good(net, cert, s) && Enabled(net, s, st)
    requires st.Send? || st.Receive? || st.Handoff?
    ensures Measure(net, cert, Apply(net, s, st)) < Measure(net, cert, s)
  {
    hide CloseOrder, Tracked, Conserved, Measure;
    match st {
      case Send(_, _, via, c) =>
        SendIsSafe(net, cert, s, st.g, via, c);
        SenderBelow(net, cert, s, st.g, via, c);
        WorkDown(net, cert, st.g, c);
        hide Certified, Good, HW, QW;
        SendDown(net, cert, s, Apply(net, s, st), st.g, c);
      case Receive(g) =>
        assert GoroutineOk(net, cert, g);
        WorkDown(net, cert, g, net.gs[g].input);
        hide Certified, Good, HW, QW;
        ReceiveDown(net, cert, s, Apply(net, s, st), g, net.gs[g].input);
      case Handoff(_, _, _, _, _) =>
        HandedDown(net, cert, s, st);
    }
  }

  lemma HandedDown(net: Net, cert: Certificate, s: State, st: Step)
    requires Certified(net, cert) && Fits(net, s) && Good(net, cert, s) && Enabled(net, s, st) && st.Handoff?
    ensures Measure(net, cert, Apply(net, s, st)) < Measure(net, cert, s)
  {
    hide CloseOrder, Tracked, Conserved, Measure;
    assert GoroutineOk(net, cert, st.r);
    SenderBelow(net, cert, s, st.g, st.via, st.c);
    WorkDown(net, cert, st.g, st.c);
    WorkDown(net, cert, st.r, st.c);
    hide Certified, Good, HW, QW;
    HandoffDown(net, cert, s, Apply(net, s, st), st.g, st.r);
  }

  lemma FlagDown(net: Net, cert: Certificate, s: State, st: Step)
    requires InRange(net) && Fits(net, s) && Enabled(net, s, st) && (st.Exit? || st.Close? || st.Stop? || st.Finish?)
    ensures Measure(net, cert, Apply(net, s, st)) < Measure(net, cert, s)
  {
    hide HW, QW, HandLoad, QueueLoad, Quiet;
    var s' := Apply(net, s, st);
    QueuesSame(net, cert, s, s');
    HandsSame(net, cert, s, s');
    match st {
      case Exit(g) =>
        SumChange(|s.exited|, Running(s), Running(s'), g);
        SumSame(|s.closed|, Closable(net, s), Closable(net, s'));
      case Close(c) =>
        SumSame(|s.exited|, Running(s), Running(s'));
        SumChange(|s.closed|, Closable(net, s), Closable(net, s'), c);
      case _ => FlagsSame(net, s, s');
    }
  }

  lemma WorkDone(net: Net, cert: Certificate, s: State, st: Step)
    requires InRange(net) && Fits(net, s) && Enabled(net, s, st) && (st.Clone? || st.Create? || st.Done?)
    ensures Measure(net, cert, Apply(net, s, st)) < Measure(net, cert, s)
  {
    hide Measure;
    HandStepDown(net, cert, s, Apply(net, s, st), st.g);
  }

  /** Every step other than an input's emission decreases the measure. */
  lemma MeasureDown(net: Net, cert: Certificate, s: State, st: Step)
    requires Certified(net, cert) && Fits(net, s) && Good(net, cert, s) && Enabled(net, s, st) && !st.Emit?
    ensures Measure(net, cert, Apply(net, s, st)) < Measure(net, cert, s)
  {
    assert InRange(net);
    hide Certified, Good, Apply, Measure;
    if st.Send? || st.Receive? || st.Handoff? {
      TransferDown(net, cert, s, st);
    } else if st.Clone? || st.Create? || st.Done? {
      WorkDone(net, cert, s, st);
    } else {
      FlagDown(net, cert, s, st);
    }
  }

  /** Once the inputs emit no more, a run has at most `Measure` steps left. Together with `AlwaysMoves`, every
      run after the stop signal reaches Stopped. */
  lemma {:induction false} RunsEnd(net: Net, cert: Certificate, trace: seq<State>, steps: seq<Step>, k: nat)
    requires Certified(net, cert) && Run(net, trace, steps) && k < |trace|
    requires forall j :: k <= j < |steps| ==> !steps[j].Emit?
    ensures |steps| - k <= Measure(net, cert, trace[k])
    decreases |steps| - k
  {
    if k < |steps| {
      GoodAlways(net, cert, trace, steps, k);
      MeasureDown(net, cert, trace[k], steps[k]);
      RunsEnd(net, cert, trace, steps, k + 1);
    }
  }

  /** A run in which every input has returned emits no more. */
  lemma {:induction false} NoEmitAfterReturn(net: Net, trace: seq<State>, steps: seq<Step>, k: nat, j: nat)
    requires InRange(net) && Run(net, trace, steps) && k <= j < |steps|
    requires forall g :: 0 <= g < |net.gs| && net.gs[g].kind.Input? ==> trace[k].exited[g]
    ensures !steps[j].Emit?
    ensures forall g :: 0 <= g < |net.gs| && net.gs[g].kind.Input? ==> trace[j].exited[g]
  {
    if k < j {
      NoEmitAfterReturn(net, trace, steps, k, j - 1);
    }
  }

  lemma OneMoreStep(net: Net, trace: seq<State>, steps: seq<Step>, st: Step)
    requires InRange(net) && Run(net, trace, steps) && Enabled(net, trace[|steps|], st)
    ensures Run(net, trace + [Apply(net, trace[|steps|], st)], steps + [st])
  {
  }

  /** A run in which the stop signal was given, and which no step but the emission of another event could continue,
      has reached Stopped. */
  lemma OnlyStoppedRests(net: Net, cert: Certificate, trace: seq<State>, steps: seq<Step>)
    requires Certified(net, cert) && Run(net, trace, steps) && !trace[|steps|].phase.Running?
    requires forall st: Step :: Enabled(net, trace[|steps|], st) ==> st.Emit?
    ensures trace[|steps|].phase.Stopped?
  {
    hide Certified;
    if trace[|steps|].phase.Stopping? {
      var st := AlwaysMoves(net, cert, trace, steps, |steps|);
    }
  }

  /** Every run in which the stop signal was given can be continued, by steps of the goroutines that need no input
      to emit, to one that reaches Stopped, within `Measure` steps. */
  lemma {:induction false} Stops(net: Net, cert: Certificate, trace: seq<State>, steps: seq<Step>)
    returns (trace': seq<State>, steps': seq<Step>)
    requires Certified(net, cert) && Run(net, trace, steps) && !trace[|steps|].phase.Running?
    ensures Run(net, trace', steps') && trace <= trace' && steps <= steps' && trace'[|steps'|].phase.Stopped?
    ensures |steps'| - |steps| <= Measure(net, cert, trace[|steps|])
    decreases Measure(net, cert, trace[|steps|])
  {
    hide Measure, Certified, Run, Apply, Enabled;
    trace', steps' := trace, steps;
    InTrace(net, cert, trace, steps);
    if trace[|steps|].phase.Stopping? {
      var more, st := StepOn(net, cert, trace, steps);
      trace', steps' := Stops(net, cert, more, steps + [st]);
    }
  }

  lemma InTrace(net: Net, cert: Certificate, trace: seq<State>, steps: seq<Step>)
    requires Certified(net, cert) && Run(net, trace, steps)
    ensures InRange(net) && |trace| == |steps| + 1 && Fits(net, trace[|steps|])
    ensures |cert.grank| == |net.gs| && |cert.crank| == |net.chans|
  {
  }

  lemma StepOn(net: Net, cert: Certificate, trace: seq<State>, steps: seq<Step>) returns (more: seq<State>, st: Step)
    requires Certified(net, cert) && Run(net, trace, steps) && trace[|steps|].phase.Stopping?
    ensures trace <= more && Run(net, more, steps + [st]) && |more| == |trace| + 1
    ensures !more[|trace|].phase.Running?
    ensures Measure(net, cert, more[|trace|]) < Measure(net, cert, trace[|steps|])
  {
    var s := trace[|steps|];
    GoodAlways(net, cert, trace, steps, |steps|);
    st := AlwaysMoves(net, cert, trace, steps, |steps|);
    MeasureDown(net, cert, s, st);
    OneMoreStep(net, trace, steps, st);
    StaysStopping(net, s, st);
    more := trace + [Apply(net, s, st)];
  }

  lemma StaysStopping(net: Net, s: State, st: Step)
    requires InRange(net) && Fits(net, s) && Enabled(net, s, st) && !s.phase.Running?
    ensures !Apply(net, s, st).phase.Running?
  {
  }
}
