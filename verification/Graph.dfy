/** Networks of goroutines that pass events over channels, and all their runs. A goroutine ranges over its one
    input channel, sends every event it consumes or copies exactly once, and returns when its input is closed
    and empty; a `close` statement runs once the goroutines it waits for have returned. */
module Graph {
  import opened Sums
  import opened Options

  /** An event copy; copies made by `Clone` or `ShareTracker` share the tracker. */
  datatype Event = Event(id: nat, tracker: Option<nat>)

  /** `Input` emits new events, `Plugin` consumes and sends, `Sink` calls `Done` on what it consumes. */
  datatype Kind = Input | Plugin | Sink

  /** `outs` are the channels the goroutine's plugin was given; the mixers of one group share theirs. */
  datatype Goroutine = Goroutine(kind: Kind, input: nat, outs: set<nat>, group: Option<nat>)

  /** `closes` lists the close statements of the channel, each with the goroutines it waits for. */
  datatype Channel = Channel(capacity: nat, closes: seq<set<nat>>)

  /** `copies` is the number of copies and new events a plugin may make for one consumed event. */
  datatype Net = Net(gs: seq<Goroutine>, chans: seq<Channel>, copies: nat)

  datatype Phase = Running | Stopping | Stopped

  /** `duty` and `fired` give the counter and the hook runs of each tracker; `minted` and `finished` are the
      histories of the events that came to exist and of those on which `Done` was called. */
  datatype State = State(queues: seq<seq<Event>>, hands: seq<seq<Event>>, exited: seq<bool>, closed: seq<nat>,
                         budget: seq<nat>, duty: seq<int>, fired: seq<nat>, minted: seq<Event>,
                         finished: seq<Event>, phase: Phase, panicked: bool)

  datatype Step =
    | Emit(g: nat, tracked: bool)
    | Clone(g: nat, k: nat)
    | Create(g: nat)
    | Send(g: nat, k: nat, via: nat, c: nat)
    | Handoff(g: nat, k: nat, via: nat, c: nat, r: nat)
    | Receive(g: nat)
    | Done(g: nat, k: nat)
    | Exit(g: nat)
    | Close(c: nat)
    | Stop
    | Finish

  ghost predicate InRange(net: Net) {
    && (forall g :: 0 <= g < |net.gs| ==> net.gs[g].kind.Input? || net.gs[g].input < |net.chans|)
    && (forall g :: 0 <= g < |net.gs| ==> forall c <- net.gs[g].outs :: c < |net.chans|)
    && (forall c, i :: 0 <= c < |net.chans| && 0 <= i < |net.chans[c].closes| ==>
          forall w <- net.chans[c].closes[i] :: w < |net.gs|)
  }

  predicate Fits(net: Net, s: State) {
    && |s.queues| == |s.closed| == |net.chans|
    && |s.hands| == |s.exited| == |s.budget| == |net.gs|
    && |s.duty| == |s.fired|
  }

  predicate Live(net: Net, s: State, g: nat)
    requires Fits(net, s)
  {
    g < |net.gs| && !s.exited[g]
  }

  predicate Holds(net: Net, s: State, g: nat, k: nat)
    requires Fits(net, s)
  {
    Live(net, s, g) && k < |s.hands[g]|
  }

  /** Whether g may send on the channel c: it is one of its own, or, for a mixer, the output of a mixer of its
      group that is still in the table of outputs. */
  predicate MaySend(net: Net, s: State, g: nat, via: nat, c: nat)
    requires Fits(net, s)
  {
    && g < |net.gs| && Live(net, s, via) && c in net.gs[via].outs && c < |net.chans|
    && (via == g || (net.gs[g].group.Some? && net.gs[via].group == net.gs[g].group))
  }

  predicate Reads(net: Net, g: nat, c: nat) {
    g < |net.gs| && !net.gs[g].kind.Input? && net.gs[g].input == c
  }

  /** Everything has returned and every close statement has run. */
  predicate Quiet(net: Net, s: State)
    requires Fits(net, s)
  {
    && (forall g :: 0 <= g < |net.gs| ==> s.exited[g])
    && (forall c :: 0 <= c < |net.chans| ==> s.closed[c] == |net.chans[c].closes|)
  }

  predicate Enabled(net: Net, s: State, st: Step)
    requires InRange(net) && Fits(net, s)
  {
    && !s.panicked
    && match st
       case Emit(g, _) => Live(net, s, g) && net.gs[g].kind.Input?
       case Clone(g, k) => Holds(net, s, g, k) && net.gs[g].kind.Plugin? && s.budget[g] > 0
       case Create(g) => Live(net, s, g) && net.gs[g].kind.Plugin? && s.budget[g] > 0
       case Send(g, k, via, c) =>
         && Holds(net, s, g, k) && !net.gs[g].kind.Sink? && MaySend(net, s, g, via, c)
         && (s.closed[c] > 0 || |s.queues[c]| < net.chans[c].capacity)
       case Handoff(g, k, via, c, r) =>
         && Holds(net, s, g, k) && !net.gs[g].kind.Sink? && MaySend(net, s, g, via, c)
         && net.chans[c].capacity == 0 && s.closed[c] == 0
         && Reads(net, r, c) && Live(net, s, r) && r != g
       case Receive(g) => Live(net, s, g) && !net.gs[g].kind.Input? && s.queues[net.gs[g].input] != []
       case Done(g, k) => Holds(net, s, g, k) && net.gs[g].kind.Sink?
       case Exit(g) =>
         && Live(net, s, g) && s.hands[g] == []
         && (net.gs[g].kind.Input? || (s.closed[net.gs[g].input] > 0 && s.queues[net.gs[g].input] == []))
       case Close(c) =>
         && c < |net.chans| && s.closed[c] < |net.chans[c].closes|
         && forall w <- net.chans[c].closes[s.closed[c]] :: s.exited[w]
       case Stop => s.phase.Running?
       case Finish => s.phase.Stopping? && Quiet(net, s)
  }

  /** `atomic.AddInt32` on the tracker of an event, if it has one. */
  function Bump(duty: seq<int>, e: Event, d: int): (r: seq<int>)
    ensures |r| == |duty|
  {
    if e.tracker.Some? && e.tracker.value < |duty|
    then duty[e.tracker.value := duty[e.tracker.value] + d]
    else duty
  }

  function DutyOf(duty: seq<int>, e: Event): int {
    if e.tracker.Some? && e.tracker.value < |duty| then duty[e.tracker.value] else 1
  }

  /** A new event or copy appears in the hands of g. */
  function Mint(s: State, g: nat, e: Event): State
    requires g < |s.hands|
  {
    s.(hands := s.hands[g := s.hands[g] + [e]], minted := s.minted + [e])
  }

  /** Done: the duty decreases, below zero the process panics, at zero every hook runs. */
  function Complete(s: State, g: nat, k: nat): State
    requires g < |s.hands| && k < |s.hands[g]| && |s.duty| == |s.fired|
  {
    var e := s.hands[g][k];
    var duty := Bump(s.duty, e, -1);
    var n := DutyOf(duty, e);
    s.(hands := s.hands[g := Without(s.hands[g], k)],
       finished := s.finished + [e],
       duty := duty,
       fired := if n == 0 && e.tracker.Some? then s.fired[e.tracker.value := s.fired[e.tracker.value] + 1] else s.fired,
       panicked := n < 0)
  }

  function Apply(net: Net, s: State, st: Step): (s': State)
    requires InRange(net) && Fits(net, s) && Enabled(net, s, st)
    ensures Fits(net, s')
  {
    match st
    case Emit(g, tracked) =>
      if tracked
      then Mint(s, g, Event(|s.minted|, Some(|s.duty|))).(duty := s.duty + [1], fired := s.fired + [0])
      else Mint(s, g, Event(|s.minted|, None))
    case Clone(g, k) =>
      var e := Event(|s.minted|, s.hands[g][k].tracker);
      Mint(s, g, e).(duty := Bump(s.duty, e, 1), budget := s.budget[g := s.budget[g] - 1])
    case Create(g) =>
      Mint(s, g, Event(|s.minted|, None)).(budget := s.budget[g := s.budget[g] - 1])
    case Send(g, k, via, c) =>
      if s.closed[c] > 0 then s.(panicked := true)
      else s.(hands := s.hands[g := Without(s.hands[g], k)], queues := s.queues[c := s.queues[c] + [s.hands[g][k]]])
    case Handoff(g, k, via, c, r) =>
      var hands := s.hands[g := Without(s.hands[g], k)];
      s.(hands := hands[r := hands[r] + [s.hands[g][k]]], budget := s.budget[r := s.budget[r] + net.copies])
    case Receive(g) =>
      var c := net.gs[g].input;
      s.(hands := s.hands[g := s.hands[g] + [s.queues[c][0]]], queues := s.queues[c := s.queues[c][1..]],
         budget := s.budget[g := s.budget[g] + net.copies])
    case Done(g, k) => Complete(s, g, k)
    case Exit(g) => s.(exited := s.exited[g := true])
    case Close(c) => s.(closed := s.closed[c := s.closed[c] + 1], panicked := s.closed[c] > 0)
    case Stop => s.(phase := Stopping)
    case Finish => s.(phase := Stopped)
  }

  /** Nothing has happened yet; the plugins may bring any budget for events they create on their own. */
  ghost predicate Initial(net: Net, s: State) {
    && Fits(net, s)
    && (forall c :: 0 <= c < |s.queues| ==> s.queues[c] == [] && s.closed[c] == 0)
    && (forall g :: 0 <= g < |s.hands| ==> s.hands[g] == [] && !s.exited[g])
    && s.duty == [] && s.minted == [] && s.finished == [] && s.phase.Running? && !s.panicked
  }

  ghost predicate Run(net: Net, trace: seq<State>, steps: seq<Step>) {
    && InRange(net) && |trace| == |steps| + 1 && Initial(net, trace[0])
    && (forall k :: 0 <= k < |trace| ==> Fits(net, trace[k]))
    && forall k :: 0 <= k < |steps| ==>
         Enabled(net, trace[k], steps[k]) && trace[k + 1] == Apply(net, trace[k], steps[k])
  }

  // ---- Well-formed wiring ----

  /** A certificate for the wiring. `covers[g]` are goroutines that have returned when g has; ranks increase
      from a sender through its channel to the readers. */
  datatype Certificate = Certificate(covers: seq<set<nat>>, grank: seq<nat>, crank: seq<nat>)

  /** What the one close statement of a channel waits for. */
  function Closer(net: Net, c: nat): set<nat> {
    if c < |net.chans| && |net.chans[c].closes| == 1 then net.chans[c].closes[0] else {}
  }

  ghost predicate Covered(net: Net, cert: Certificate, x: nat, c: nat) {
    exists w :: w in Closer(net, c) && w < |cert.covers| && x in cert.covers[w]
  }

  ghost predicate GoroutineOk(net: Net, cert: Certificate, g: nat)
    requires InRange(net) && g < |net.gs| == |cert.covers| == |cert.grank| && |cert.crank| == |net.chans|
  {
    && (forall x <- cert.covers[g] :: x == g || (!net.gs[g].kind.Input? && Covered(net, cert, x, net.gs[g].input)))
    && (!net.gs[g].kind.Input? ==> cert.crank[net.gs[g].input] <= cert.grank[g])
    && (forall c <- net.gs[g].outs :: Covered(net, cert, g, c) && cert.grank[g] < cert.crank[c])
    && (net.gs[g].kind.Sink? <==> net.gs[g].outs == {})
    && (net.gs[g].group.Some? ==> net.gs[g].kind.Plugin?)
    && (forall h :: 0 <= h < |net.gs| && net.gs[h].group == net.gs[g].group && net.gs[g].group.Some? ==>
          cert.grank[h] == cert.grank[g])
  }

  ghost predicate ChannelOk(net: Net, cert: Certificate, c: nat)
    requires InRange(net) && c < |net.chans| == |cert.crank| && |net.gs| == |cert.grank|
  {
    && |net.chans[c].closes| == 1
    && (forall w <- Closer(net, c) :: w < |net.gs| && cert.grank[w] < cert.crank[c])
    && exists g :: Reads(net, g, c)
  }

  ghost predicate Certified(net: Net, cert: Certificate) {
    && InRange(net)
    && |net.gs| == |cert.covers| == |cert.grank| && |cert.crank| == |net.chans|
    && (forall g, x :: 0 <= g < |cert.covers| && x in cert.covers[g] ==> x < |net.gs|)
    && (forall g :: 0 <= g < |net.gs| ==> GoroutineOk(net, cert, g))
    && (forall c :: 0 <= c < |net.chans| ==> ChannelOk(net, cert, c))
  }

  // ---- No send on a closed channel, no double close ----

  ghost predicate ClosedAfter(net: Net, s: State, c: nat)
    requires Fits(net, s) && c < |net.chans|
  {
    s.closed[c] > 0 ==> forall w <- Closer(net, c) :: w < |net.gs| && s.exited[w]
  }

  /** A close statement has run only after everything it waits for has returned. */
  ghost predicate Closes(net: Net, s: State)
    requires Fits(net, s)
  {
    && (forall c :: 0 <= c < |net.chans| ==> s.closed[c] <= 1)
    && (forall c :: 0 <= c < |net.chans| ==> ClosedAfter(net, s, c))
  }

  /** A goroutine has returned only with nothing in its hands and its input closed and empty. */
  ghost predicate Returned(net: Net, s: State, g: nat)
    requires InRange(net) && Fits(net, s) && g < |net.gs|
  {
    s.exited[g] ==>
      && s.hands[g] == []
      && (!net.gs[g].kind.Input? ==> s.closed[net.gs[g].input] > 0 && s.queues[net.gs[g].input] == [])
  }

  ghost predicate CoversReturned(net: Net, cert: Certificate, s: State)
    requires Fits(net, s) && |cert.covers| == |net.gs|
  {
    forall g, x :: 0 <= g < |net.gs| && s.exited[g] && x in cert.covers[g] ==> x < |net.gs| && s.exited[x]
  }

  ghost predicate CloseOrder(net: Net, cert: Certificate, s: State)
    requires Certified(net, cert) && Fits(net, s)
  {
    && !s.panicked
    && Closes(net, s)
    && (forall g :: 0 <= g < |net.gs| ==> Returned(net, s, g))
    && CoversReturned(net, cert, s)
    && (forall c :: 0 <= c < |net.chans| && s.queues[c] != [] ==> net.chans[c].capacity > 0)
  }

  /** A channel with a live goroutine among those its closer covers is open. */
  lemma OpenWhileCovered(net: Net, cert: Certificate, s: State, x: nat, c: nat)
    requires Certified(net, cert) && Fits(net, s) && CloseOrder(net, cert, s)
    requires c < |net.chans| && Covered(net, cert, x, c) && Live(net, s, x)
    ensures s.closed[c] == 0
  {
    assert ClosedAfter(net, s, c);
    var w :| w in Closer(net, c) && w < |cert.covers| && x in cert.covers[w];
  }

  lemma SendIsSafe(net: Net, cert: Certificate, s: State, g: nat, via: nat, c: nat)
    requires Certified(net, cert) && Fits(net, s) && CloseOrder(net, cert, s) && MaySend(net, s, g, via, c)
    ensures s.closed[c] == 0
  {
    assert GoroutineOk(net, cert, via);
    OpenWhileCovered(net, cert, s, via, c);
  }

  lemma ExitIsCovered(net: Net, cert: Certificate, s: State, g: nat, x: nat)
    requires Certified(net, cert) && Fits(net, s) && CloseOrder(net, cert, s)
    requires Enabled(net, s, Exit(g)) && x in cert.covers[g] && x != g
    ensures s.exited[x]
  {
    assert GoroutineOk(net, cert, g);
    assert ClosedAfter(net, s, net.gs[g].input);
    var w :| w in Closer(net, net.gs[g].input) && w < |cert.covers| && x in cert.covers[w];
  }

  lemma ClosesStep(net: Net, s: State, st: Step)
    requires InRange(net) && Fits(net, s) && Closes(net, s) && Enabled(net, s, st)
    requires st.Close? ==> |net.chans[st.c].closes| == 1
    ensures Closes(net, Apply(net, s, st))
  {
    var s' := Apply(net, s, st);
    forall c: nat | c < |net.chans| ensures ClosedAfter(net, s', c) {
      assert ClosedAfter(net, s, c);
      if st.Close? && c == st.c {
        assert Closer(net, c) == net.chans[c].closes[s.closed[c]];
      }
    }
  }

  lemma ReturnedStep(net: Net, s: State, st: Step, g: nat)
    requires InRange(net) && Fits(net, s) && g < |net.gs| && Returned(net, s, g) && Enabled(net, s, st)
    requires st.Send? ==> s.closed[st.c] == 0
    ensures Returned(net, Apply(net, s, st), g)
  {
  }

  lemma CoversStep(net: Net, cert: Certificate, s: State, st: Step)
    requires Certified(net, cert) && Fits(net, s) && CloseOrder(net, cert, s) && Enabled(net, s, st)
    ensures CoversReturned(net, cert, Apply(net, s, st))
  {
    if st.Exit? {
      forall x | x in cert.covers[st.g] && x != st.g ensures s.exited[x] {
        ExitIsCovered(net, cert, s, st.g, x);
      }
    } else {
      assert Apply(net, s, st).exited == s.exited;
    }
  }

  lemma NoPanic(net: Net, cert: Certificate, s: State, st: Step)
    requires Certified(net, cert) && Fits(net, s) && CloseOrder(net, cert, s) && Enabled(net, s, st) && !st.Done?
    ensures !Apply(net, s, st).panicked
  {
    match st {
      case Send(g, _, via, c) => SendIsSafe(net, cert, s, g, via, c);
      case Close(c) => assert ChannelOk(net, cert, c);
      case _ =>
    }
  }

  /** No step sends on a closed channel or closes one twice, and the order of returns is kept. */
  lemma CloseOrderStep(net: Net, cert: Certificate, s: State, st: Step)
    requires Certified(net, cert) && Fits(net, s) && CloseOrder(net, cert, s) && Enabled(net, s, st)
    requires !Apply(net, s, st).panicked
    ensures CloseOrder(net, cert, Apply(net, s, st))
  {
    var s' := Apply(net, s, st);
    if st.Send? {
      SendIsSafe(net, cert, s, st.g, st.via, st.c);
    }
    if st.Close? {
      assert ChannelOk(net, cert, st.c);
    }
    ClosesStep(net, s, st);
    forall g | 0 <= g < |net.gs| ensures Returned(net, s', g) {
      ReturnedStep(net, s, st, g);
    }
    CoversStep(net, cert, s, st);
    assert forall c :: 0 <= c < |net.chans| && s'.queues[c] != [] ==> s.queues[c] != [] || net.chans[c].capacity > 0;
  }

  // ---- Conservation of events, and the duty of trackers ----

  function OfTracker(t: nat): Event -> bool {
    (e: Event) => e.tracker == Some(t)
  }

  function InQueue(s: State, p: Event -> bool): nat -> nat {
    (c: nat) => if c < |s.queues| then Cnt(s.queues[c], p) else 0
  }

  function InHand(s: State, p: Event -> bool): nat -> nat {
    (g: nat) => if g < |s.hands| then Cnt(s.hands[g], p) else 0
  }

  /** The events satisfying p that are in some channel or in the hands of some goroutine. */
  function InFlight(s: State, p: Event -> bool): nat {
    Sum(|s.queues|, InQueue(s, p)) + Sum(|s.hands|, InHand(s, p))
  }

  ghost predicate Conserved(s: State, p: Event -> bool) {
    Cnt(s.minted, p) == InFlight(s, p) + Cnt(s.finished, p)
  }

  /** Each tracker's duty is the number of its copies in flight, and its hooks have run once exactly when that
      number is zero. */
  ghost predicate Tracked(s: State) {
    && |s.duty| == |s.fired|
    && (forall t: nat :: t < |s.duty| ==>
          s.duty[t] == Cnt(s.minted, OfTracker(t)) - Cnt(s.finished, OfTracker(t))
          && s.fired[t] == if s.duty[t] == 0 then 1 else 0)
    && (forall t: nat :: t >= |s.duty| ==> Cnt(s.minted, OfTracker(t)) == 0)
  }

  lemma InFlightSame(s: State, s': State, p: Event -> bool)
    requires s.queues == s'.queues && s.hands == s'.hands
    ensures InFlight(s', p) == InFlight(s, p)
  {
    SumSame(|s.queues|, InQueue(s, p), InQueue(s', p));
    SumSame(|s.hands|, InHand(s, p), InHand(s', p));
  }

  /** s' differs from s in one hand only. */
  lemma InFlightOfHand(s: State, s': State, g: nat, p: Event -> bool)
    requires g < |s.hands| == |s'.hands| && s'.queues == s.queues && s'.hands == s.hands[g := s'.hands[g]]
    ensures InFlight(s', p) == InFlight(s, p) - Cnt(s.hands[g], p) + Cnt(s'.hands[g], p)
  {
    SumChange(|s.hands|, InHand(s, p), InHand(s', p), g);
    SumSame(|s.queues|, InQueue(s, p), InQueue(s', p));
  }

  /** s' differs from s in one queue only. */
  lemma InFlightOfQueue(s: State, s': State, c: nat, p: Event -> bool)
    requires c < |s.queues| == |s'.queues| && s'.hands == s.hands && s'.queues == s.queues[c := s'.queues[c]]
    ensures InFlight(s', p) == InFlight(s, p) - Cnt(s.queues[c], p) + Cnt(s'.queues[c], p)
  {
    SumChange(|s.queues|, InQueue(s, p), InQueue(s', p), c);
    SumSame(|s.hands|, InHand(s, p), InHand(s', p));
  }

  lemma MintConserves(s: State, s': State, g: nat, e: Event, p: Event -> bool)
    requires g < |s.hands| == |s'.hands| && s'.queues == s.queues && s'.hands == s.hands[g := s.hands[g] + [e]]
    requires s'.minted == s.minted + [e] && s'.finished == s.finished && Conserved(s, p)
    ensures Conserved(s', p)
  {
    InFlightOfHand(s, s', g, p);
    CntAppend(s.hands[g], e, p);
    CntAppend(s.minted, e, p);
  }

  lemma SendConserves(net: Net, s: State, g: nat, k: nat, c: nat, p: Event -> bool)
    requires g < |s.hands| && k < |s.hands[g]| && c < |s.queues|
    ensures InFlight(s.(hands := s.hands[g := Without(s.hands[g], k)],
                        queues := s.queues[c := s.queues[c] + [s.hands[g][k]]]), p) == InFlight(s, p)
  {
    var s1 := s.(hands := s.hands[g := Without(s.hands[g], k)]);
    var s2 := s1.(queues := s.queues[c := s.queues[c] + [s.hands[g][k]]]);
    InFlightOfHand(s, s1, g, p);
    InFlightOfQueue(s1, s2, c, p);
    CntWithout(s.hands[g], k, p);
    CntAppend(s.queues[c], s.hands[g][k], p);
  }

  lemma HandoffConserves(s: State, g: nat, k: nat, r: nat, p: Event -> bool)
    requires g < |s.hands| && k < |s.hands[g]| && r < |s.hands| && r != g
    ensures InFlight(s.(hands := s.hands[g := Without(s.hands[g], k)][r := s.hands[r] + [s.hands[g][k]]]), p)
         == InFlight(s, p)
  {
    var s1 := s.(hands := s.hands[g := Without(s.hands[g], k)]);
    var s2 := s1.(hands := s1.hands[r := s.hands[r] + [s.hands[g][k]]]);
    InFlightOfHand(s, s1, g, p);
    InFlightOfHand(s1, s2, r, p);
    CntWithout(s.hands[g], k, p);
    CntAppend(s.hands[r], s.hands[g][k], p);
  }

  lemma ReceiveConserves(s: State, g: nat, c: nat, p: Event -> bool)
    requires g < |s.hands| && c < |s.queues| && s.queues[c] != []
    ensures InFlight(s.(hands := s.hands[g := s.hands[g] + [s.queues[c][0]]],
            queues := s.queues[c := s.queues[c][1..]]), p)
         == InFlight(s, p)
  {
    var s1 := s.(hands := s.hands[g := s.hands[g] + [s.queues[c][0]]]);
    var s2 := s1.(queues := s.queues[c := s.queues[c][1..]]);
    InFlightOfHand(s, s1, g, p);
    InFlightOfQueue(s1, s2, c, p);
    CntAppend(s.hands[g], s.queues[c][0], p);
  }

  lemma DoneConserves(s: State, g: nat, k: nat, p: Event -> bool)
    requires g < |s.hands| && k < |s.hands[g]| && |s.duty| == |s.fired| && Conserved(s, p)
    ensures Conserved(Complete(s, g, k), p)
  {
    InFlightOfHand(s, Complete(s, g, k), g, p);
    CntWithout(s.hands[g], k, p);
    CntAppend(s.finished, s.hands[g][k], p);
  }

  lemma ConservedStep(net: Net, s: State, st: Step, p: Event -> bool)
    requires InRange(net) && Fits(net, s) && Enabled(net, s, st) && Conserved(s, p)
    ensures Conserved(Apply(net, s, st), p)
  {
    var s' := Apply(net, s, st);
    match st {
      case Emit(g, _) => MintConserves(s, s', g, s'.minted[|s.minted|], p);
      case Clone(g, _) => MintConserves(s, s', g, s'.minted[|s.minted|], p);
      case Create(g) => MintConserves(s, s', g, s'.minted[|s.minted|], p);
      case Send(g, k, _, c) =>
        SendConserves(net, s, g, k, c, p);
        if s.closed[c] > 0 { InFlightSame(s, s', p); }
      case Handoff(g, k, _, _, r) =>
        HandoffConserves(s, g, k, r, p);
        InFlightSame(s.(hands := s'.hands), s', p);
      case Receive(g) =>
        ReceiveConserves(s, g, net.gs[g].input, p);
        InFlightSame(s.(hands := s'.hands, queues := s'.queues), s', p);
      case Done(g, k) => DoneConserves(s, g, k, p);
      case _ => InFlightSame(s, s', p);
    }
  }

  /** A copy in someone's hands belongs to a tracker that is not at zero. */
  lemma InHandCounts(s: State, g: nat, k: nat)
    requires g < |s.hands| && k < |s.hands[g]| && Tracked(s) && s.hands[g][k].tracker.Some?
    requires Conserved(s, OfTracker(s.hands[g][k].tracker.value))
    ensures s.hands[g][k].tracker.value < |s.duty| && s.duty[s.hands[g][k].tracker.value] >= 1
  {
    var p := OfTracker(s.hands[g][k].tracker.value);
    CntWithout(s.hands[g], k, p);
    SumZero(|s.hands|, InHand(s, p));
    assert InHand(s, p)(g) >= 1;
  }

  lemma TrackedMint(s: State, s': State, e: Event)
    requires Tracked(s) && s'.minted == s.minted + [e] && s'.finished == s.finished
    requires forall t: nat :: Conserved(s, OfTracker(t))
    requires match e.tracker
             case None => s'.duty == s.duty && s'.fired == s.fired
             case Some(t) =>
               (t == |s.duty| && s'.duty == s.duty + [1] && s'.fired == s.fired + [0])
               || (t < |s.duty| && s.duty[t] >= 1 && s'.duty == s.duty[t := s.duty[t] + 1] && s'.fired == s.fired)
    ensures Tracked(s')
  {
    hide Cnt, Sum;
    forall t: nat
      ensures Cnt(s'.minted, OfTracker(t)) == Cnt(s.minted, OfTracker(t)) + (if e.tracker == Some(t) then 1 else 0)
    {
      CntAppend(s.minted, e, OfTracker(t));
    }
    assert Conserved(s, OfTracker(|s.duty|));
  }

  lemma TrackedDone(s: State, g: nat, k: nat)
    requires g < |s.hands| && k < |s.hands[g]| && Tracked(s)
    requires forall t: nat :: Conserved(s, OfTracker(t))
    ensures Tracked(Complete(s, g, k)) && !Complete(s, g, k).panicked
  {
    var e := s.hands[g][k];
    forall t: nat
      ensures Cnt(s.finished + [e], OfTracker(t))
              == Cnt(s.finished, OfTracker(t)) + (if e.tracker == Some(t) then 1 else 0)
    {
      CntAppend(s.finished, e, OfTracker(t));
    }
    if e.tracker.Some? {
      InHandCounts(s, g, k);
    }
  }

  lemma TrackedSame(s: State, s': State)
    requires Tracked(s)
    requires s'.duty == s.duty && s'.fired == s.fired && s'.minted == s.minted && s'.finished == s.finished
    ensures Tracked(s')
  {
  }

  lemma TrackedStep(net: Net, s: State, st: Step)
    requires InRange(net) && Fits(net, s) && Enabled(net, s, st) && Tracked(s)
    requires forall t: nat :: Conserved(s, OfTracker(t))
    ensures Tracked(Apply(net, s, st))
    ensures st.Done? ==> !Apply(net, s, st).panicked
  {
    hide Tracked, Conserved;
    var s' := Apply(net, s, st);
    match st {
      case Emit(_, _) => TrackedMint(s, s', s'.minted[|s.minted|]);
      case Clone(g, k) =>
        if s.hands[g][k].tracker.Some? { InHandCounts(s, g, k); }
        TrackedMint(s, s', s'.minted[|s.minted|]);
      case Create(_) => TrackedMint(s, s', s'.minted[|s.minted|]);
      case Done(g, k) => TrackedDone(s, g, k);
      case _ =>
        TrackedSame(s, s');
    }
  }

  // ---- Every run ----

  ghost predicate Good(net: Net, cert: Certificate, s: State)
    requires Certified(net, cert) && Fits(net, s)
  {
    && CloseOrder(net, cert, s) && Tracked(s)
    && (forall p: Event -> bool :: Conserved(s, p))
    && (s.phase.Stopped? ==> Quiet(net, s))
  }

  lemma GoodStep(net: Net, cert: Certificate, s: State, st: Step)
    requires Certified(net, cert) && Fits(net, s) && Good(net, cert, s) && Enabled(net, s, st)
    ensures Good(net, cert, Apply(net, s, st))
  {
    TrackedStep(net, s, st);
    if !st.Done? {
      NoPanic(net, cert, s, st);
    }
    CloseOrderStep(net, cert, s, st);
    forall p: Event -> bool ensures Conserved(Apply(net, s, st), p) {
      ConservedStep(net, s, st, p);
    }
  }

  lemma EmptyInFlight(s: State, p: Event -> bool)
    requires forall c :: 0 <= c < |s.queues| ==> s.queues[c] == []
    requires forall g :: 0 <= g < |s.hands| ==> s.hands[g] == []
    ensures InFlight(s, p) == 0
  {
    SumZero(|s.queues|, InQueue(s, p));
    SumZero(|s.hands|, InHand(s, p));
  }

  lemma InitialGood(net: Net, cert: Certificate, s: State)
    requires Certified(net, cert) && Initial(net, s)
    ensures Good(net, cert, s)
  {
    forall p: Event -> bool ensures Conserved(s, p) {
      EmptyInFlight(s, p);
    }
  }

  lemma {:induction false} GoodAlways(net: Net, cert: Certificate, trace: seq<State>, steps: seq<Step>, k: nat)
    requires Certified(net, cert) && Run(net, trace, steps) && k < |trace|
    ensures Good(net, cert, trace[k])
  {
    if k == 0 {
      InitialGood(net, cert, trace[0]);
    } else {
      GoodAlways(net, cert, trace, steps, k - 1);
      GoodStep(net, cert, trace[k - 1], steps[k - 1]);
    }
  }

  /** No run of a certified network panics: nothing sends on a closed channel, closes one twice, or takes a duty
      below zero; and a tracker's hooks have run, once, exactly when none of its copies is in flight. */
  lemma NeverPanics(net: Net, cert: Certificate, trace: seq<State>, steps: seq<Step>, k: nat)
    requires Certified(net, cert) && Run(net, trace, steps) && k < |trace|
    ensures !trace[k].panicked
    ensures forall t: nat :: t < |trace[k].duty| ==>
              && trace[k].duty[t] == InFlight(trace[k], OfTracker(t))
              && trace[k].fired[t] == if InFlight(trace[k], OfTracker(t)) == 0 then 1 else 0
  {
    GoodAlways(net, cert, trace, steps, k);
    assert forall t: nat :: Conserved(trace[k], OfTracker(t));
  }

  lemma QuietIsEmpty(net: Net, cert: Certificate, s: State)
    requires Certified(net, cert) && Fits(net, s) && Good(net, cert, s) && Quiet(net, s)
    ensures forall c :: 0 <= c < |net.chans| ==> s.queues[c] == []
    ensures forall g :: 0 <= g < |net.gs| ==> s.hands[g] == []
    ensures forall p: Event -> bool :: InFlight(s, p) == 0 && Cnt(s.minted, p) == Cnt(s.finished, p)
  {
    forall g | 0 <= g < |net.gs| ensures s.hands[g] == [] {
      assert Returned(net, s, g);
    }
    forall c | 0 <= c < |net.chans| ensures s.queues[c] == [] {
      assert ChannelOk(net, cert, c);
      var g: nat :| Reads(net, g, c);
      assert Returned(net, s, g);
    }
    forall p: Event -> bool ensures InFlight(s, p) == 0 && Cnt(s.minted, p) == Cnt(s.finished, p) {
      EmptyInFlight(s, p);
      assert Conserved(s, p);
    }
  }

  /** When a run reaches Stopped, every channel is empty, `Done` was called exactly once on every event and copy
      that ever existed, every tracker's duty is zero, and each of its hooks has run exactly once. */
  lemma StoppedIsComplete(net: Net, cert: Certificate, trace: seq<State>, steps: seq<Step>, k: nat)
    requires Certified(net, cert) && Run(net, trace, steps) && k < |trace| && trace[k].phase.Stopped?
    ensures forall c :: 0 <= c < |net.chans| ==> trace[k].queues[c] == []
    ensures multiset(trace[k].minted) == multiset(trace[k].finished)
    ensures forall t: nat :: t < |trace[k].duty| ==> trace[k].duty[t] == 0 && trace[k].fired[t] == 1
  {
    var s := trace[k];
    GoodAlways(net, cert, trace, steps, k);
    QuietIsEmpty(net, cert, s);
    forall e: Event ensures multiset(s.minted)[e] == multiset(s.finished)[e] {
      CntOfMultiset(s.minted, e);
      CntOfMultiset(s.finished, e);
    }
  }

  // ---- Progress: nothing gets stuck ----

  /** A step of the network itself, taken by goroutines that consume the next event only with empty hands. */
  predicate Diligent(net: Net, s: State, st: Step)
    requires InRange(net) && Fits(net, s)
  {
    && Enabled(net, s, st)
    && match st
       case Send(_, _, _, _) => true
       case Done(_, _) => true
       case Exit(_) => true
       case Close(_) => true
       case Finish => true
       case Receive(g) => s.hands[g] == []
       case Handoff(_, _, _, _, r) => s.hands[r] == []
       case _ => false
  }

  function Top(cert: Certificate): (t: nat)
    ensures forall g :: 0 <= g < |cert.grank| ==> cert.grank[g] <= t
    ensures forall c :: 0 <= c < |cert.crank| ==> cert.crank[c] <= t
  {
    Max(cert.grank) + Max(cert.crank)
  }

  function Max(q: seq<nat>): (t: nat)
    ensures forall i :: 0 <= i < |q| ==> q[i] <= t
  {
    if q == [] then 0
    else
      var m := Max(q[1..]);
      assert forall i :: 1 <= i < |q| ==> q[i] == q[1..][i - 1];
      if q[0] <= m then m else q[0]
  }

  /** A goroutine with events in its hands, or a reader that keeps it from sending, can move. */
  lemma {:induction false} BusyMoves(net: Net, cert: Certificate, s: State, g: nat) returns (st: Step)
    requires Certified(net, cert) && Fits(net, s) && Good(net, cert, s) && Live(net, s, g) && s.hands[g] != []
    ensures Diligent(net, s, st)
    decreases Top(cert) - cert.grank[g]
  {
    assert GoroutineOk(net, cert, g);
    if net.gs[g].kind.Sink? {
      st := Done(g, 0);
    } else {
      var c :| c in net.gs[g].outs;
      SendIsSafe(net, cert, s, g, g, c);
      assert ChannelOk(net, cert, c);
      var r: nat :| Reads(net, r, c);
      assert GoroutineOk(net, cert, r) && Returned(net, s, r);
      if |s.queues[c]| < net.chans[c].capacity {
        st := Send(g, 0, g, c);
      } else if s.hands[r] != [] {
        st := BusyMoves(net, cert, s, r);
      } else if net.chans[c].capacity == 0 {
        st := Handoff(g, 0, g, c, r);
      } else {
        st := Receive(r);
      }
    }
  }

  /** With nothing in flight, a live goroutine, or something upstream that it waits for, can move. */
  lemma {:induction false} IdleMoves(net: Net, cert: Certificate, s: State, g: nat) returns (st: Step)
    requires Certified(net, cert) && Fits(net, s) && Good(net, cert, s) && Live(net, s, g)
    requires forall h :: 0 <= h < |net.gs| ==> s.hands[h] == []
    requires forall c :: 0 <= c < |net.chans| ==> s.queues[c] == []
    ensures Diligent(net, s, st)
    decreases cert.grank[g]
  {
    assert GoroutineOk(net, cert, g);
    if net.gs[g].kind.Input? || s.closed[net.gs[g].input] > 0 {
      st := Exit(g);
    } else {
      var c := net.gs[g].input;
      assert ChannelOk(net, cert, c);
      if w: nat :| w in Closer(net, c) && Live(net, s, w) {
        st := IdleMoves(net, cert, s, w);
      } else {
        st := Close(c);
      }
    }
  }

  /** In every state of every run after the stop signal, until Stopped, some step of the network is possible. */
  lemma AlwaysMoves(net: Net, cert: Certificate, trace: seq<State>, steps: seq<Step>, k: nat) returns (st: Step)
    requires Certified(net, cert) && Run(net, trace, steps) && k < |trace| && trace[k].phase.Stopping?
    ensures Diligent(net, trace[k], st)
  {
    var s := trace[k];
    GoodAlways(net, cert, trace, steps, k);
    assert forall h :: 0 <= h < |net.gs| ==> Returned(net, s, h);
    if g: nat :| g < |net.gs| && s.hands[g] != [] {
      assert Returned(net, s, g);
      st := BusyMoves(net, cert, s, g);
    } else if c: nat :| c < |net.chans| && s.queues[c] != [] {
      assert ChannelOk(net, cert, c);
      var r: nat :| Reads(net, r, c);
      assert Returned(net, s, r);
      st := Receive(r);
    } else if g: nat :| Live(net, s, g) {
      st := IdleMoves(net, cert, s, g);
    } else {
      forall g: nat | g < |net.gs| ensures s.exited[g] {
        assert !Live(net, s, g);
      }
      if c: nat :| c < |net.chans| && s.closed[c] == 0 {
        assert ChannelOk(net, cert, c) && Closer(net, c) == net.chans[c].closes[0];
        st := Close(c);
      } else {
        forall c: nat | c < |net.chans| ensures s.closed[c] == |net.chans[c].closes| {
          assert ChannelOk(net, cert, c) && s.closed[c] != 0;
        }
        st := Finish;
      }
    }
  }
}
