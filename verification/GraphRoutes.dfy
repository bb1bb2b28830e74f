/** How an event gets along in a certified network: from a goroutine that has it to any goroutine that reads a channel
    the first one may send on. */
module GraphRoutes {
  import opened Options
  import opened Sums
  import opened Graph

  /** g was given a channel that h reads. */
  predicate Feeds(net: Net, g: nat, c: nat, h: nat) {
    g < |net.gs| && !net.gs[g].kind.Sink? && c in net.gs[g].outs && Reads(net, h, c)
  }

  /** One event is on its way, and g has it; nothing is closed, and nobody has returned. */
  ghost predicate OnlyAt(net: Net, s: State, g: nat, e: Event) {
    && Fits(net, s) && !s.panicked && g < |net.gs|
    && s.hands[g] == [e] && (forall x :: 0 <= x < |s.hands| && x != g ==> s.hands[x] == [])
    && (forall c :: 0 <= c < |s.queues| ==> s.queues[c] == [] && s.closed[c] == 0)
    && forall x :: 0 <= x < |s.exited| ==> !s.exited[x]
  }

  /** A run whose last state has the event at g. */
  ghost predicate Arrives(net: Net, trace: seq<State>, steps: seq<Step>, g: nat, e: Event) {
    Run(net, trace, steps) && OnlyAt(net, trace[|steps|], g, e)
  }

  function Nothing(net: Net): State {
    State(seq(|net.chans|, _ => []), seq(|net.gs|, _ => []), seq(|net.gs|, _ => false), seq(|net.chans|, _ => 0),
          seq(|net.gs|, _ => 0), [], [], [], [], Running, false)
  }

  /** An input emits a tracked event. */
  lemma Emits(net: Net, cert: Certificate, g: nat) returns (trace: seq<State>, steps: seq<Step>)
    requires Certified(net, cert) && g < |net.gs| && net.gs[g].kind.Input?
    ensures Arrives(net, trace, steps, g, Event(0, Some(0))) && steps == [Emit(g, true)]
  {
    var s := Nothing(net);
    trace, steps := [s, Apply(net, s, Emit(g, true))], [Emit(g, true)];
  }

  lemma OneMore(net: Net, trace: seq<State>, steps: seq<Step>, st: Step)
    returns (trace': seq<State>, steps': seq<Step>)
    requires Run(net, trace, steps) && Enabled(net, trace[|steps|], st)
    ensures Run(net, trace', steps') && trace <= trace' && steps <= steps'
    ensures |steps'| == |steps| + 1 && trace'[|steps'|] == Apply(net, trace[|steps|], st)
  {
    trace', steps' := trace + [Apply(net, trace[|steps|], st)], steps + [st];
  }

  lemma FeedsAhead(net: Net, cert: Certificate, g: nat, c: nat, h: nat)
    requires Certified(net, cert) && Feeds(net, g, c, h)
    ensures g != h && c < |net.chans|
  {
    assert GoroutineOk(net, cert, g) && GoroutineOk(net, cert, h);
  }

  /** The event goes from g to h: at once through an unbuffered channel, or into the buffer and out of it. */
  lemma Hop(net: Net, cert: Certificate, trace: seq<State>, steps: seq<Step>, g: nat, c: nat, h: nat, e: Event)
    returns (trace': seq<State>, steps': seq<Step>)
    requires Certified(net, cert) && Arrives(net, trace, steps, g, e) && Feeds(net, g, c, h)
    ensures Arrives(net, trace', steps', h, e) && trace <= trace' && steps <= steps'
  {
    FeedsAhead(net, cert, g, c, h);
    hide Certified, Run;
    if net.chans[c].capacity == 0 {
      HandedOver(net, trace[|steps|], g, c, h, e);
      trace', steps' := OneMore(net, trace, steps, Handoff(g, 0, g, c, h));
    } else {
      SentAndReceived(net, trace[|steps|], g, c, h, e);
      trace', steps' := OneMore(net, trace, steps, Send(g, 0, g, c));
      trace', steps' := OneMore(net, trace', steps', Receive(h));
    }
  }

  lemma HandedOver(net: Net, s: State, g: nat, c: nat, h: nat, e: Event)
    requires InRange(net) && OnlyAt(net, s, g, e) && Feeds(net, g, c, h) && g != h && c < |net.chans|
    requires net.chans[c].capacity == 0
    ensures Enabled(net, s, Handoff(g, 0, g, c, h)) && OnlyAt(net, Apply(net, s, Handoff(g, 0, g, c, h)), h, e)
  {
  }

  lemma SentAndReceived(net: Net, s: State, g: nat, c: nat, h: nat, e: Event)
    requires InRange(net) && OnlyAt(net, s, g, e) && Feeds(net, g, c, h) && g != h && c < |net.chans|
    requires net.chans[c].capacity > 0
    ensures Enabled(net, s, Send(g, 0, g, c))
    ensures var s' := Apply(net, s, Send(g, 0, g, c));
            Enabled(net, s', Receive(h)) && OnlyAt(net, Apply(net, s', Receive(h)), h, e)
  {
  }

  ghost predicate FeedsTo(net: Net, g: nat, h: nat) {
    exists c: nat :: Feeds(net, g, c, h)
  }

  ghost predicate FeedsNext(net: Net, g: nat) {
    FeedsTo(net, g, g + 1)
  }

  /** Each of the n goroutines from g on feeds the next one. */
  ghost predicate Chained(net: Net, g: nat, n: nat) {
    forall x: nat :: g <= x < g + n ==> FeedsNext(net, x)
  }

  lemma {:induction false} Along(net: Net, cert: Certificate, trace: seq<State>, steps: seq<Step>, g: nat, n: nat,
                                 e: Event)
    returns (trace': seq<State>, steps': seq<Step>)
    requires Certified(net, cert) && Arrives(net, trace, steps, g, e) && Chained(net, g, n)
    ensures Arrives(net, trace', steps', g + n, e) && trace <= trace' && steps <= steps'
  {
    trace', steps' := trace, steps;
    hide Certified, Arrives, Feeds;
    if n > 0 {
      trace', steps' := Along(net, cert, trace, steps, g, n - 1, e);
      assert FeedsNext(net, g + n - 1);
      var c: nat :| Feeds(net, g + n - 1, c, g + n);
      trace', steps' := Hop(net, cert, trace', steps', g + n - 1, c, g + n, e);
    }
  }
}
