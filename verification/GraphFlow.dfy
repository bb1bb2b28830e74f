/** Conservation inside a running network: for any part of it, such as one unit, what has come in is what has gone out
    and what is still there. */
module GraphFlow {
  import opened Options
  import opened Sums
  import opened Graph
  import opened Topology

  /** Where an event is: in a goroutine's hands, in a channel, or not in the network: not made yet, or finished. */
  datatype Place = Nowhere | Hand(g: nat) | Chan(c: nat)

  datatype Move = Move(e: Event, from: Place, to: Place)

  /** The event that a step moves. A copy or a new event comes from nowhere, a finished one goes there. */
  function MoveOf(net: Net, s: State, st: Step): Option<Move>
    requires InRange(net) && Fits(net, s) && Enabled(net, s, st)
  {
    match st
    case Emit(g, tracked) => Some(Move(Event(|s.minted|, if tracked then Some(|s.duty|) else None), Nowhere, Hand(g)))
    case Clone(g, k) => Some(Move(Event(|s.minted|, s.hands[g][k].tracker), Nowhere, Hand(g)))
    case Create(g) => Some(Move(Event(|s.minted|, None), Nowhere, Hand(g)))
    case Send(g, k, _, c) => if s.closed[c] > 0 then None else Some(Move(s.hands[g][k], Hand(g), Chan(c)))
    case Handoff(g, k, _, _, r) => Some(Move(s.hands[g][k], Hand(g), Hand(r)))
    case Receive(g) => Some(Move(s.queues[net.gs[g].input][0], Chan(net.gs[g].input), Hand(g)))
    case Done(g, k) => Some(Move(s.hands[g][k], Hand(g), Nowhere))
    case _ => None
  }

  /** A part of a network. */
  datatype Region = Region(hands: set<nat>, chans: set<nat>)
  {
    predicate Has(place: Place) {
      match place
      case Nowhere => false
      case Hand(g) => g in hands
      case Chan(c) => c in chans
    }
  }

  predicate Enters(r: Region, m: Option<Move>) {
    m.Some? && r.Has(m.value.to) && !r.Has(m.value.from)
  }

  predicate Leaves(r: Region, m: Option<Move>) {
    m.Some? && r.Has(m.value.from) && !r.Has(m.value.to)
  }

  function QueueIn(s: State, r: Region, p: Event -> bool): nat -> nat {
    (c: nat) => if c < |s.queues| && c in r.chans then Cnt(s.queues[c], p) else 0
  }

  function HandIn(s: State, r: Region, p: Event -> bool): nat -> nat {
    (g: nat) => if g < |s.hands| && g in r.hands then Cnt(s.hands[g], p) else 0
  }

  /** The events satisfying p that are in the region. */
  function Content(s: State, r: Region, p: Event -> bool): nat {
    Sum(|s.queues|, QueueIn(s, r, p)) + Sum(|s.hands|, HandIn(s, r, p))
  }

  function Number(b: bool): nat {
    if b then 1 else 0
  }

  lemma ContentSame(s: State, s': State, r: Region, p: Event -> bool)
    requires s.queues == s'.queues && s.hands == s'.hands
    ensures Content(s', r, p) == Content(s, r, p)
  {
    SumSame(|s.queues|, QueueIn(s, r, p), QueueIn(s', r, p));
    SumSame(|s.hands|, HandIn(s, r, p), HandIn(s', r, p));
  }

  lemma ContentOfHand(s: State, s': State, g: nat, r: Region, p: Event -> bool)
    requires g < |s.hands| == |s'.hands| && s'.queues == s.queues && s'.hands == s.hands[g := s'.hands[g]]
    ensures Content(s', r, p)
         == if g in r.hands then Content(s, r, p) - Cnt(s.hands[g], p) + Cnt(s'.hands[g], p) else Content(s, r, p)
  {
    SumChange(|s.hands|, HandIn(s, r, p), HandIn(s', r, p), g);
    SumSame(|s.queues|, QueueIn(s, r, p), QueueIn(s', r, p));
  }

  lemma ContentOfQueue(s: State, s': State, c: nat, r: Region, p: Event -> bool)
    requires c < |s.queues| == |s'.queues| && s'.hands == s.hands && s'.queues == s.queues[c := s'.queues[c]]
    ensures Content(s', r, p)
         == if c in r.chans then Content(s, r, p) - Cnt(s.queues[c], p) + Cnt(s'.queues[c], p) else Content(s, r, p)
  {
    SumChange(|s.queues|, QueueIn(s, r, p), QueueIn(s', r, p), c);
    SumSame(|s.hands|, HandIn(s, r, p), HandIn(s', r, p));
  }

  /** An event appears in a hand, and in the same step disappears from where it was. */
  lemma Gain(s: State, s': State, g: nat, e: Event, r: Region, p: Event -> bool)
    requires g < |s.hands| == |s'.hands| && s'.queues == s.queues && s'.hands == s.hands[g := s.hands[g] + [e]]
    ensures Content(s', r, p) == Content(s, r, p) + Number(g in r.hands && p(e))
  {
    hide Content;
    ContentOfHand(s, s', g, r, p);
    CntAppend(s.hands[g], e, p);
  }

  lemma Loss(s: State, s': State, g: nat, k: nat, r: Region, p: Event -> bool)
    requires g < |s.hands| == |s'.hands| && k < |s.hands[g]| && s'.queues == s.queues
    requires s'.hands == s.hands[g := Without(s.hands[g], k)]
    ensures Content(s', r, p) == Content(s, r, p) - Number(g in r.hands && p(s.hands[g][k]))
  {
    hide Content;
    ContentOfHand(s, s', g, r, p);
    CntWithout(s.hands[g], k, p);
  }

  lemma SendFlow(s: State, s': State, g: nat, k: nat, c: nat, r: Region, p: Event -> bool)
    requires g < |s.hands| && k < |s.hands[g]| && c < |s.queues|
    requires s'.hands == s.hands[g := Without(s.hands[g], k)]
    requires s'.queues == s.queues[c := s.queues[c] + [s.hands[g][k]]]
    ensures Content(s', r, p) == Content(s, r, p)
              - Number(g in r.hands && p(s.hands[g][k])) + Number(c in r.chans && p(s.hands[g][k]))
  {
    hide Content;
    var s1 := s.(hands := s'.hands);
    Loss(s, s1, g, k, r, p);
    ContentOfQueue(s1, s', c, r, p);
    CntAppend(s.queues[c], s.hands[g][k], p);
  }

  lemma ReceiveFlow(s: State, s': State, g: nat, c: nat, r: Region, p: Event -> bool)
    requires g < |s.hands| && c < |s.queues| && s.queues[c] != []
    requires s'.hands == s.hands[g := s.hands[g] + [s.queues[c][0]]] && s'.queues == s.queues[c := s.queues[c][1..]]
    ensures Content(s', r, p) == Content(s, r, p)
              - Number(c in r.chans && p(s.queues[c][0])) + Number(g in r.hands && p(s.queues[c][0]))
  {
    hide Content;
    var s1 := s.(hands := s'.hands);
    Gain(s, s1, g, s.queues[c][0], r, p);
    ContentOfQueue(s1, s', c, r, p);
  }

  lemma HandoffFlow(s: State, s': State, g: nat, k: nat, to: nat, r: Region, p: Event -> bool)
    requires g < |s.hands| && k < |s.hands[g]| && to < |s.hands| && to != g && s'.queues == s.queues
    requires s'.hands == s.hands[g := Without(s.hands[g], k)][to := s.hands[to] + [s.hands[g][k]]]
    ensures Content(s', r, p) == Content(s, r, p)
              - Number(g in r.hands && p(s.hands[g][k])) + Number(to in r.hands && p(s.hands[g][k]))
  {
    hide Content;
    var s1 := s.(hands := s.hands[g := Without(s.hands[g], k)]);
    Loss(s, s1, g, k, r, p);
    Gain(s1, s', to, s.hands[g][k], r, p);
  }

  /** Every step changes the content by what enters and what leaves. */
  lemma ContentStep(net: Net, s: State, st: Step, r: Region, p: Event -> bool)
    requires InRange(net) && Fits(net, s) && Enabled(net, s, st)
    ensures var m, s' := MoveOf(net, s, st), Apply(net, s, st);
            Content(s', r, p) + Number(Leaves(r, m) && p(m.value.e))
              == Content(s, r, p) + Number(Enters(r, m) && p(m.value.e))
  {
    hide Content, Without;
    var s' := Apply(net, s, st);
    match st {
      case Emit(g, _) => MintStep(net, s, st, r, p);
      case Clone(g, _) => MintStep(net, s, st, r, p);
      case Create(g) => MintStep(net, s, st, r, p);
      case Send(g, k, _, c) =>
        if s.closed[c] > 0 { ContentSame(s, s', r, p); } else { SendFlow(s, s', g, k, c, r, p); }
      case Handoff(g, k, _, _, to) => HandoffFlow(s, s', g, k, to, r, p);
      case Receive(g) => ReceiveFlow(s, s', g, net.gs[g].input, r, p);
      case Done(g, k) => Loss(s, s', g, k, r, p);
      case _ => ContentSame(s, s', r, p);
    }
  }

  lemma MintStep(net: Net, s: State, st: Step, r: Region, p: Event -> bool)
    requires InRange(net) && Fits(net, s) && Enabled(net, s, st) && (st.Emit? || st.Clone? || st.Create?)
    ensures var m, s' := MoveOf(net, s, st), Apply(net, s, st);
            m.Some? && Content(s', r, p) == Content(s, r, p) + Number(Enters(r, m) && p(m.value.e)) && !Leaves(r, m)
  {
    hide Content;
    var s' := Apply(net, s, st);
    Gain(s, s', st.g, s'.minted[|s.minted|], r, p);
  }

  /** The events that have entered the region in the first n steps. */
  function Entered(net: Net, trace: seq<State>, steps: seq<Step>, n: nat, r: Region): seq<Event>
    requires InRange(net) && n <= |steps| && Legal(net, trace, steps)
  {
    if n == 0 then []
    else
      var m := MoveOf(net, trace[n - 1], steps[n - 1]);
      Entered(net, trace, steps, n - 1, r) + if Enters(r, m) then [m.value.e] else []
  }

  function Left(net: Net, trace: seq<State>, steps: seq<Step>, n: nat, r: Region): seq<Event>
    requires InRange(net) && n <= |steps| && Legal(net, trace, steps)
  {
    if n == 0 then []
    else
      var m := MoveOf(net, trace[n - 1], steps[n - 1]);
      Left(net, trace, steps, n - 1, r) + if Leaves(r, m) then [m.value.e] else []
  }

  predicate Legal(net: Net, trace: seq<State>, steps: seq<Step>)
    requires InRange(net)
  {
    && |trace| == |steps| + 1
    && forall k :: 0 <= k < |steps| ==> Fits(net, trace[k]) && Enabled(net, trace[k], steps[k])
  }

  lemma {:induction false} Balance(net: Net, trace: seq<State>, steps: seq<Step>, n: nat, r: Region, p: Event -> bool)
    requires Run(net, trace, steps) && n <= |steps|
    ensures Cnt(Entered(net, trace, steps, n, r), p) == Cnt(Left(net, trace, steps, n, r), p) + Content(trace[n], r, p)
  {
    hide Content;
    if n == 0 {
      NothingIn(net, trace[0], r, p);
    } else {
      Balance(net, trace, steps, n - 1, r, p);
      ContentStep(net, trace[n - 1], steps[n - 1], r, p);
      var m := MoveOf(net, trace[n - 1], steps[n - 1]);
      hide MoveOf;
      OneMore(Entered(net, trace, steps, n - 1, r), m, Enters(r, m), p);
      OneMore(Left(net, trace, steps, n - 1, r), m, Leaves(r, m), p);
    }
  }

  lemma OneMore(events: seq<Event>, m: Option<Move>, counts: bool, p: Event -> bool)
    requires counts ==> m.Some?
    ensures Cnt(events + if counts then [m.value.e] else [], p) == Cnt(events, p) + Number(counts && p(m.value.e))
  {
    if counts {
      CntAppend(events, m.value.e, p);
    } else {
      assert events + [] == events;
    }
  }

  lemma NothingIn(net: Net, s: State, r: Region, p: Event -> bool)
    requires Fits(net, s)
    requires forall c :: 0 <= c < |s.queues| && c in r.chans ==> s.queues[c] == []
    requires forall g :: 0 <= g < |s.hands| && g in r.hands ==> s.hands[g] == []
    ensures Content(s, r, p) == 0
  {
    SumZero(|s.queues|, QueueIn(s, r, p));
    SumZero(|s.hands|, HandIn(s, r, p));
  }

  /** A region that is closed on itself: each of its channels is read by one of its goroutines. */
  ghost predicate ReadInside(net: Net, r: Region) {
    && (forall g <- r.hands :: g < |net.gs|)
    && forall c <- r.chans :: c < |net.chans| && exists g :: g in r.hands && Reads(net, g, c)
  }

  lemma PartIsEmpty(net: Net, cert: Certificate, s: State, r: Region)
    requires Certified(net, cert) && Fits(net, s) && Good(net, cert, s) && ReadInside(net, r)
    requires forall g <- r.hands :: s.exited[g]
    ensures forall c <- r.chans :: s.queues[c] == []
    ensures forall g <- r.hands :: s.hands[g] == []
  {
    hide Tracked, Conserved;
    assert forall g <- r.hands :: Returned(net, s, g);
    forall c <- r.chans ensures s.queues[c] == [] {
      var g :| g in r.hands && Reads(net, g, c);
      assert Returned(net, s, g);
    }
  }

  /** In every run of a certified network, for every part of it whose channels are read within it: once its goroutines
      have returned, its channels are empty, and the events that have left it are exactly, one for one, those that
      have entered it: by being received from outside, or by being made inside. */
  lemma PartConserves(net: Net, cert: Certificate, trace: seq<State>, steps: seq<Step>, n: nat, r: Region)
    requires Certified(net, cert) && Run(net, trace, steps) && n <= |steps| && ReadInside(net, r)
    requires forall g <- r.hands :: trace[n].exited[g]
    ensures forall c <- r.chans :: trace[n].queues[c] == []
    ensures multiset(Entered(net, trace, steps, n, r)) == multiset(Left(net, trace, steps, n, r))
  {
    GoodAlways(net, cert, trace, steps, n);
    PartIsEmpty(net, cert, trace[n], r);
    hide Certified, Good;
    forall p: Event -> bool
      ensures Cnt(Entered(net, trace, steps, n, r), p) == Cnt(Left(net, trace, steps, n, r), p)
    {
      SameCount(net, trace, steps, n, r, p);
    }
    SameCounts(Entered(net, trace, steps, n, r), Left(net, trace, steps, n, r));
  }

  lemma SameCount(net: Net, trace: seq<State>, steps: seq<Step>, n: nat, r: Region, p: Event -> bool)
    requires Run(net, trace, steps) && n <= |steps|
    requires forall c: nat :: c < |trace[n].queues| && c in r.chans ==> trace[n].queues[c] == []
    requires forall g: nat :: g < |trace[n].hands| && g in r.hands ==> trace[n].hands[g] == []
    ensures Cnt(Entered(net, trace, steps, n, r), p) == Cnt(Left(net, trace, steps, n, r), p)
  {
    hide Content, Entered, Left;
    Balance(net, trace, steps, n, r, p);
    NothingIn(net, trace[n], r, p);
  }

  lemma SameCounts(a: seq<Event>, b: seq<Event>)
    requires forall p: Event -> bool :: Cnt(a, p) == Cnt(b, p)
    ensures multiset(a) == multiset(b)
  {
    forall e: Event ensures multiset(a)[e] == multiset(b)[e] {
      CntOfMultiset(a, e);
      CntOfMultiset(b, e);
    }
  }

  // ---- The units of a pipeline ----

  /** The events put into channel c in the first k steps, and those taken out of it, in order: what a step puts is the
      last one in the channel then, and what it takes is the last one in the receiver's hands then. */
  function Puts(net: Net, trace: seq<State>, steps: seq<Step>, k: nat, c: nat): seq<Event>
    requires k <= |steps| < |trace|
  {
    if k == 0 then []
    else
      var q := if c < |trace[k].queues| then trace[k].queues[c] else [];
      Puts(net, trace, steps, k - 1, c)
      + if steps[k - 1].Send? && steps[k - 1].c == c && q != [] then [q[|q| - 1]] else []
  }

  function Takes(net: Net, trace: seq<State>, steps: seq<Step>, k: nat, c: nat): seq<Event>
    requires k <= |steps| < |trace|
  {
    if k == 0 then []
    else
      var g := if steps[k - 1].Receive? then steps[k - 1].g else 0;
      var hand := if g < |trace[k].hands| then trace[k].hands[g] else [];
      Takes(net, trace, steps, k - 1, c)
      + if steps[k - 1].Receive? && Reads(net, g, c) && hand != [] then [hand[|hand| - 1]] else []
  }

  lemma QueueStep(net: Net, trace: seq<State>, steps: seq<Step>, k: nat, c: nat)
    requires Run(net, trace, steps) && k < |steps| && c < |net.chans| && !trace[k + 1].panicked
    ensures var s, st, s' := trace[k], steps[k], trace[k + 1];
            && c < |s.queues| == |s'.queues|
            && if st.Send? && st.c == c then s'.queues[c] != [] && s'.queues[c][..|s'.queues[c]| - 1] == s.queues[c]
               else if st.Receive? && Reads(net, st.g, c) then
                 && st.g < |s'.hands| && s'.hands[st.g] != []
                 && s.queues[c] == [s'.hands[st.g][|s'.hands[st.g]| - 1]] + s'.queues[c]
               else s'.queues[c] == s.queues[c]
  {
  }

  lemma NothingPut(net: Net, trace: seq<State>, steps: seq<Step>, c: nat)
    requires Run(net, trace, steps) && c < |net.chans|
    ensures |trace| == |steps| + 1 && c < |trace[0].queues| && trace[0].queues[c] == []
  {
  }

  /** First in, first out: in every run that has not panicked, what was put into a channel is what was taken out of it,
      followed by what is in it, in this order. */
  lemma {:induction false} FirstInFirstOut(net: Net, trace: seq<State>, steps: seq<Step>, k: nat, c: nat)
    requires Run(net, trace, steps) && k <= |steps| && c < |net.chans|
    requires forall j :: 0 <= j <= k ==> !trace[j].panicked
    ensures Puts(net, trace, steps, k, c) == Takes(net, trace, steps, k, c) + trace[k].queues[c]
  {
    hide Run, Reads;
    NothingPut(net, trace, steps, c);
    if k > 0 {
      FirstInFirstOut(net, trace, steps, k - 1, c);
      QueueStep(net, trace, steps, k - 1, c);
    }
  }

  /** The j-th filter of a chain. */
  lemma {:induction false} FilterAt(gs: seq<Goroutine>, n: nat, first: nat, rejects: nat, next: nat, j: nat)
    requires j < n
    ensures Chain(gs, n, first, rejects, next)[|gs| + j]
         == Goroutine(Plugin, Accepts(first, next, j), {rejects, Accepts(first, next, j + 1)}, None)
  {
    if j < n - 1 {
      FilterAt(gs, n - 1, first, rejects, next, j);
    }
  }

  /** The filters of a unit and its plugin, with the channels between them. */
  function UnitPart(net: Net, n: nat): Region {
    Region(Range(|net.gs|, n + 1), Range(|net.chans| + 2, n))
  }

  /** The j-th filter of a unit whose own two channels are numbered from `own`. */
  function NthFilter(in_: nat, own: nat, j: nat): Goroutine {
    Goroutine(Plugin, Accepts(in_, own + 2, j), {own, Accepts(in_, own + 2, j + 1)}, None)
  }

  /** A processor or output unit behind `net`: its filters, then its plugin, which reads the last filter's accepts. */
  ghost predicate HasUnit(net: Net, whole: Net, n: nat, in_: nat) {
    var g, own := |net.gs|, |net.chans|;
    && g + n + 1 <= |whole.gs| && own + 2 + n <= |whole.chans|
    && (forall i :: g <= i < g + n ==> whole.gs[i] == NthFilter(in_, own, i - g))
    && whole.gs[g + n].kind.Plugin? && whole.gs[g + n].input == Accepts(in_, own + 2, n)
    && whole.gs[g + n].outs <= {own, own + 1}
  }

  /** Every channel between the filters is read within the unit; its goroutines read these and the unit's input, and
      the channels they were given are these and the unit's own two. */
  lemma UnitIsPart(net: Net, whole: Net, n: nat, in_: nat)
    requires HasUnit(net, whole, n, in_) && in_ < |net.chans|
    ensures ReadInside(whole, UnitPart(net, n))
    ensures forall g <- UnitPart(net, n).hands ::
              && (whole.gs[g].input == in_ || whole.gs[g].input in UnitPart(net, n).chans)
              && whole.gs[g].outs <= UnitPart(net, n).chans + {|net.chans|, |net.chans| + 1}
  {
    var g0, own, r := |net.gs|, |net.chans|, UnitPart(net, n);
    forall g: nat ensures g in r.hands <==> g0 <= g < g0 + n + 1 {
      InRangeBounds(g0, n + 1, g);
    }
    forall c: nat ensures c in r.chans <==> own + 2 <= c < own + 2 + n {
      InRangeBounds(own + 2, n, c);
    }
    forall c <- r.chans ensures exists g :: g in r.hands && Reads(whole, g, c) {
      var g := g0 + (c - own - 1);
      if g < g0 + n {
        assert whole.gs[g] == NthFilter(in_, own, g - g0);
      }
      assert g in r.hands && Reads(whole, g, c);
    }
    forall g <- r.hands
      ensures whole.gs[g].input == in_ || whole.gs[g].input in r.chans
      ensures whole.gs[g].outs <= r.chans + {own, own + 1}
    {
      if g < g0 + n {
        assert whole.gs[g] == NthFilter(in_, own, g - g0);
      }
    }
  }

  /** Where a goroutine of a unit may send at all: to the next filter, or to one of the unit's own two channels; and,
      if it is a mixer, also to what other mixers of its group were given. */
  lemma UnitSends(net: Net, whole: Net, n: nat, in_: nat, s: State, g: nat, via: nat, c: nat)
    requires HasUnit(net, whole, n, in_) && in_ < |net.chans|
    requires Fits(whole, s) && g in UnitPart(net, n).hands && MaySend(whole, s, g, via, c)
    ensures c in UnitPart(net, n).chans + {|net.chans|, |net.chans| + 1}
            || (whole.gs[g].group.Some? && whole.gs[via].group == whole.gs[g].group && c in whole.gs[via].outs)
  {
    UnitIsPart(net, whole, n, in_);
    hide HasUnit, UnitPart;
  }

  /** A processor or output unit in any certified network, in any run: once its filters and its plugin have returned,
      the channels between them are empty, and what it has read from its input, with the copies and new events made
      in it, is exactly what it has sent out. */
  lemma UnitConserves(net: Net, whole: Net, cert: Certificate, trace: seq<State>, steps: seq<Step>, k: nat,
                      n: nat, in_: nat)
    requires HasUnit(net, whole, n, in_) && in_ < |net.chans|
    requires Certified(whole, cert) && Run(whole, trace, steps) && k <= |steps|
    requires forall j :: |net.gs| <= j <= |net.gs| + n ==> trace[k].exited[j]
    ensures forall c :: |net.chans| + 2 <= c < |net.chans| + 2 + n ==> trace[k].queues[c] == []
    ensures multiset(Entered(whole, trace, steps, k, UnitPart(net, n)))
         == multiset(Left(whole, trace, steps, k, UnitPart(net, n)))
  {
    UnitIsPart(net, whole, n, in_);
    UnitHas(net, n);
    hide Certified, HasUnit, ReadInside, Entered, Left, UnitPart;
    PartConserves(whole, cert, trace, steps, k, UnitPart(net, n));
  }

  lemma UnitHas(net: Net, n: nat)
    ensures forall g: nat :: g in UnitPart(net, n).hands <==> |net.gs| <= g <= |net.gs| + n
    ensures forall c: nat :: c in UnitPart(net, n).chans <==> |net.chans| + 2 <= c < |net.chans| + 2 + n
  {
    forall g: nat ensures g in UnitPart(net, n).hands <==> |net.gs| <= g <= |net.gs| + n {
      InRangeBounds(|net.gs|, n + 1, g);
    }
    forall c: nat ensures c in UnitPart(net, n).chans <==> |net.chans| + 2 <= c < |net.chans| + 2 + n {
      InRangeBounds(|net.chans| + 2, n, c);
    }
  }
}
