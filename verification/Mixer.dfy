/** The mixer (plugins/core/mixer/mixer.go): the mixers at the same place of all lines share a table of the lines'
    output channels behind a read/write lock, and each sends what it consumes to whichever output is ready. The
    pipeline registers the lines one after the other, and only then starts to read what the lines emit
    (pipeline/pipeline.go:315-344). */
module Mixer {
  import opened Sums

  /** Where a mixer's goroutine is. From `Reading` to `Sent` it holds the read lock. */
  datatype Pc =
    | Unborn                              // SetChannels has not run for this line
    | Ranging                             // waits for the next event
    | Taken(e: nat)                       // has consumed e, waits for the read lock
    | Reading(e: nat)
    | Selecting(e: nat, cases: set<nat>)  // in reflect.Select over the outputs of these lines
    | Sent
    | Ended                               // its input is closed and empty
    | Waiting                             // in Lock: new readers are held back from now on
    | Returned                            // its table entry is deleted
    | Closed                              // the line's unit has closed its output

  /** The goroutine that assembles the pipeline: k lines are registered; it is in Lock for line k; it has started
      the fan-in behind the lines. */
  datatype Builder = Building(k: nat) | Registering(k: nat) | Started

  datatype Writer = Nobody | Line(i: nat) | Main

  datatype Given = Given(e: nat, to: nat)

  /** `room[j]` is the number of events that fit behind line j's output while nobody reads the line's end; `keeps`
      tells that nothing behind the mixers drops events before that. */
  datatype Setup = Setup(room: seq<nat>, keeps: bool)

  datatype State = State(pcs: seq<Pc>, table: set<nat>, writer: Writer, main: Builder, room: seq<nat>,
                         took: seq<seq<nat>>, gave: seq<seq<Given>>, panicked: bool)

  datatype Step =
    | Take(i: nat, e: nat)
    | RLock(i: nat)
    | Snapshot(i: nat)
    | Send(i: nat, j: nat)
    | RUnlock(i: nat)
    | EndInput(i: nat)
    | Lock(i: nat)
    | Delete(i: nat)
    | Close(i: nat)
    | Claim
    | Register
    | Start
    | Absorb(j: nat)

  predicate Fits(cfg: Setup, s: State) {
    |s.pcs| == |s.room| == |s.took| == |s.gave| == |cfg.room|
  }

  predicate Reader(pc: Pc) {
    pc.Reading? || pc.Selecting? || pc.Sent?
  }

  predicate NoReader(s: State) {
    forall i :: 0 <= i < |s.pcs| ==> !Reader(s.pcs[i])
  }

  predicate Enabled(cfg: Setup, s: State, st: Step)
    requires Fits(cfg, s)
  {
    && !s.panicked
    && match st
       case Take(i, _) => i < |s.pcs| && s.pcs[i].Ranging?
       case RLock(i) => i < |s.pcs| && s.pcs[i].Taken? && s.writer.Nobody?
       case Snapshot(i) => i < |s.pcs| && s.pcs[i].Reading?
       case Send(i, j) =>
         && i < |s.pcs| && s.pcs[i].Selecting? && j < |s.pcs| && j in s.pcs[i].cases
         && (s.pcs[j].Closed? || s.room[j] > 0)
       case RUnlock(i) => i < |s.pcs| && s.pcs[i].Sent?
       case EndInput(i) => i < |s.pcs| && s.pcs[i].Ranging?
       case Lock(i) => i < |s.pcs| && s.pcs[i].Ended? && s.writer.Nobody?
       case Delete(i) => i < |s.pcs| && s.pcs[i].Waiting? && NoReader(s)
       case Close(i) => i < |s.pcs| && s.pcs[i].Returned?
       case Claim => s.main.Building? && s.main.k < |s.pcs| && s.writer.Nobody?
       case Register => s.main.Registering? && s.main.k < |s.pcs| && NoReader(s)
       case Start => s.main.Building? && s.main.k == |s.pcs|
       case Absorb(j) => j < |s.pcs| && s.room[j] < cfg.room[j] && (s.main.Started? || !cfg.keeps)
  }

  function At(s: State, i: nat, pc: Pc): State
    requires i < |s.pcs|
  {
    s.(pcs := s.pcs[i := pc])
  }

  function Apply(cfg: Setup, s: State, st: Step): (s': State)
    requires Fits(cfg, s) && Enabled(cfg, s, st)
    ensures Fits(cfg, s')
  {
    match st
    case Take(i, e) => At(s, i, Taken(e)).(took := s.took[i := s.took[i] + [e]])
    case RLock(i) => At(s, i, Reading(s.pcs[i].e))
    case Snapshot(i) => At(s, i, Selecting(s.pcs[i].e, s.table))
    case Send(i, j) =>
      if s.pcs[j].Closed? then s.(panicked := true)
      else At(s, i, Sent).(gave := s.gave[i := s.gave[i] + [Given(s.pcs[i].e, j)]], room := s.room[j := s.room[j] - 1])
    case RUnlock(i) => At(s, i, Ranging)
    case EndInput(i) => At(s, i, Ended)
    case Lock(i) => At(s, i, Waiting).(writer := Line(i))
    case Delete(i) => At(s, i, Returned).(table := s.table - {i}, writer := Nobody)
    case Close(i) => At(s, i, Closed)
    case Claim => s.(main := Registering(s.main.k), writer := Main)
    case Register => At(s, s.main.k, Ranging).(table := s.table + {s.main.k}, writer := Nobody,
      main := Building(s.main.k + 1))
    case Start => s.(main := Started)
    case Absorb(j) => s.(room := s.room[j := s.room[j] + 1])
  }

  function Initial(cfg: Setup): State {
    var n := |cfg.room|;
    State(seq(n, _ => Unborn), {}, Nobody, Building(0), cfg.room, seq(n, _ => []), seq(n, _ => []), false)
  }

  /** A path of steps from the first to the last of the states. */
  ghost predicate Path(cfg: Setup, states: seq<State>) {
    && states != []
    && (forall k :: 0 <= k < |states| ==> Fits(cfg, states[k]))
    && forall k :: 0 <= k < |states| - 1 ==> Moves(cfg, states[k], states[k + 1])
  }

  ghost predicate Moves(cfg: Setup, s: State, s': State)
    requires Fits(cfg, s)
  {
    exists st :: Enabled(cfg, s, st) && s' == Apply(cfg, s, st)
  }

  ghost predicate Run(cfg: Setup, states: seq<State>) {
    Path(cfg, states) && states[0] == Initial(cfg)
  }

  // ---- Safety ----

  function Lines(s: State): nat {
    if s.main.Started? then |s.pcs| else s.main.k
  }

  predicate Registered(pc: Pc) {
    !pc.Unborn? && !pc.Returned? && !pc.Closed?
  }

  function Events(gave: seq<Given>): (es: seq<nat>) {
    seq(|gave|, k requires 0 <= k < |gave| => gave[k].e)
  }

  function Hand(pc: Pc): seq<nat> {
    if pc.Taken? || pc.Reading? || pc.Selecting? then [pc.e] else []
  }

  ghost predicate LineOk(s: State, i: nat)
    requires i < |s.pcs| == |s.took| == |s.gave|
  {
    && (s.pcs[i].Unborn? <==> i >= Lines(s))
    && (i in s.table <==> Registered(s.pcs[i]))
    && (s.pcs[i].Selecting? ==> s.pcs[i].cases == s.table)
    && (s.pcs[i].Waiting? <==> s.writer == Line(i))
    && Carried(s, i)
  }

  /** What mixer i gave away, followed by what is in its hand, is what it took. */
  ghost predicate Carried(s: State, i: nat)
    requires i < |s.pcs| == |s.took| == |s.gave|
  {
    && Events(s.gave[i]) + Hand(s.pcs[i]) == s.took[i]
    && forall k :: 0 <= k < |s.gave[i]| ==> s.gave[i][k].to < |s.pcs|
  }

  /** The table holds exactly the lines that are registered and have not returned; whoever is selecting selects
      over all of them; and what a mixer gave away is what it took, one by one and in order. */
  ghost predicate Good(cfg: Setup, s: State) {
    && Fits(cfg, s) && !s.panicked && Lines(s) <= |s.pcs|
    && (s.main.Registering? ==> s.main.k < |s.pcs|)
    && (s.writer.Main? <==> s.main.Registering?)
    && (s.writer.Line? ==> s.writer.i < |s.pcs|)
    && (forall i <- s.table :: i < |s.pcs|)
    && (forall i :: 0 <= i < |s.pcs| ==> LineOk(s, i))
    && forall j :: 0 <= j < |s.room| ==> s.room[j] <= cfg.room[j]
  }

  lemma EventsAppend(gave: seq<Given>, g: Given)
    ensures Events(gave + [g]) == Events(gave) + [g.e]
  {
  }

  lemma CarriedStep(cfg: Setup, s: State, st: Step, i: nat)
    requires Good(cfg, s) && Enabled(cfg, s, st) && i < |s.pcs|
    ensures Carried(Apply(cfg, s, st), i)
  {
    hide Events;
    assert LineOk(s, i);
    match st
    case Send(j, to) => EventsAppend(s.gave[j], Given(s.pcs[j].e, to));
    case Register => assert LineOk(s, s.main.k);
    case _ =>
  }

  lemma LineStep(cfg: Setup, s: State, st: Step, i: nat)
    requires Good(cfg, s) && Enabled(cfg, s, st) && i < |s.pcs|
    requires st.Send? ==> !s.pcs[st.j].Closed?
    ensures LineOk(Apply(cfg, s, st), i)
  {
    CarriedStep(cfg, s, st, i);
    hide Carried;
    assert LineOk(s, i);
    match st
    case Take(j, e) => assert LineOk(s, j);
    case Lock(j) => assert LineOk(s, j);
    case Delete(j) => assert LineOk(s, j);
    case Register => assert LineOk(s, s.main.k);
    case _ =>
  }

  lemma GoodStep(cfg: Setup, s: State, st: Step)
    requires Good(cfg, s) && Enabled(cfg, s, st)
    ensures Good(cfg, Apply(cfg, s, st))
  {
    hide LineOk;
    var s' := Apply(cfg, s, st);
    if st.Send? {
      SelectIsOpen(cfg, s, st.i, st.j);
    }
    forall i: nat | i < |s.pcs| ensures LineOk(s', i) {
      LineStep(cfg, s, st, i);
    }
    WriterStep(cfg, s, st);
  }

  lemma WriterStep(cfg: Setup, s: State, st: Step)
    requires Good(cfg, s) && Enabled(cfg, s, st)
    ensures var s' := Apply(cfg, s, st); s'.writer.Main? <==> s'.main.Registering?
  {
    if st.Delete? {
      assert LineOk(s, st.i);
    }
  }

  /** A selecting mixer's cases hold its own output, and no output that has been closed. */
  lemma SelectIsOpen(cfg: Setup, s: State, i: nat, j: nat)
    requires Good(cfg, s) && i < |s.pcs| && s.pcs[i].Selecting? && j in s.pcs[i].cases
    ensures i in s.pcs[i].cases && j < |s.pcs| && Registered(s.pcs[j])
  {
    assert LineOk(s, i);
    assert LineOk(s, j);
  }

  lemma {:induction false} GoodAlways(cfg: Setup, states: seq<State>)
    requires Run(cfg, states)
    ensures forall k :: 0 <= k < |states| ==> Good(cfg, states[k])
  {
    var n := |states| - 1;
    if n == 0 {
      var s := states[0];
      forall i: nat | i < |s.pcs| ensures LineOk(s, i) {
      }
    } else {
      var front := states[..n];
      GoodAlways(cfg, front);
      assert Moves(cfg, states[n - 1], states[n]);
      var st :| Enabled(cfg, states[n - 1], st) && states[n] == Apply(cfg, states[n - 1], st);
      assert front[n - 1] == states[n - 1];
      GoodStep(cfg, states[n - 1], st);
    }
  }

  /** In every run, for any number of lines that end in any order: no mixer ever sends on an output that is closed or
      whose line has returned, a selecting mixer chooses among all lines that are registered and have not returned,
      its own included, and every event that a mixer has consumed was sent to exactly one line, but for the one in its
      hand. */
  lemma Handover(cfg: Setup, states: seq<State>, k: nat, i: nat)
    requires Run(cfg, states) && k < |states| && i < |cfg.room|
    ensures var s := states[k];
            && !s.panicked
            && (s.pcs[i].Selecting? ==>
                  && i in s.pcs[i].cases
                  && (forall j <- s.pcs[i].cases :: j < |s.pcs|)
                  && forall j: nat :: j < |s.pcs| ==>
                       (j in s.pcs[i].cases <==> !s.pcs[j].Unborn? && !s.pcs[j].Returned? && !s.pcs[j].Closed?))
            && s.took[i] == Events(s.gave[i]) + Hand(s.pcs[i])
            && forall m :: 0 <= m < |s.gave[i]| ==> s.gave[i][m].to < |cfg.room|
  {
    GoodAlways(cfg, states);
    var s := states[k];
    assert LineOk(s, i);
    if s.pcs[i].Selecting? {
      assert i in s.table;
      forall j: nat | j < |s.pcs| ensures j in s.table <==> Registered(s.pcs[j]) {
        assert LineOk(s, j);
      }
    }
  }

  // ---- The assembly of the pipeline may get stuck ----

  function Wants(s: State): nat -> nat {
    (i: nat) => if i < |s.pcs| && (s.pcs[i].Reading? || s.pcs[i].Selecting?) then 1 else 0
  }

  function RoomIn(s: State): nat -> nat {
    (j: nat) => if j < |s.room| && j in s.table then s.room[j] else 0
  }

  /** A line is still to be registered, and more mixers hold the read lock with an event to send than there is
      room behind the lines registered so far. */
  ghost predicate Doomed(s: State) {
    && !s.main.Started? && s.main.k < |s.pcs|
    && Sum(|s.pcs|, Wants(s)) > Sum(|s.pcs|, RoomIn(s))
  }

  lemma NoWants(s: State)
    requires NoReader(s)
    ensures Sum(|s.pcs|, Wants(s)) == 0
  {
    SumZero(|s.pcs|, Wants(s));
  }

  /** One mixer's step changes only its own summand. */
  lemma WantsChange(s: State, s': State, i: nat)
    requires i < |s.pcs| == |s'.pcs| && forall x :: 0 <= x < |s.pcs| && x != i ==> s'.pcs[x] == s.pcs[x]
    ensures Sum(|s.pcs|, Wants(s')) == Sum(|s.pcs|, Wants(s)) - Wants(s)(i) + Wants(s')(i)
  {
    SumChange(|s.pcs|, Wants(s), Wants(s'), i);
  }

  lemma RoomChange(cfg: Setup, s: State, s': State, j: nat)
    requires Fits(cfg, s) && j < |s.pcs| && s'.table == s.table && |s.room| == |s'.room|
    requires forall x :: 0 <= x < |s.room| && x != j ==> s'.room[x] == s.room[x]
    ensures Sum(|s.pcs|, RoomIn(s')) == Sum(|s.pcs|, RoomIn(s)) - RoomIn(s)(j) + RoomIn(s')(j)
  {
    SumChange(|s.pcs|, RoomIn(s), RoomIn(s'), j);
  }

  lemma SameSums(s: State, s': State)
    requires |s.pcs| == |s'.pcs|
    ensures s'.pcs == s.pcs ==> Sum(|s.pcs|, Wants(s')) == Sum(|s.pcs|, Wants(s))
    ensures s'.table == s.table && s'.room == s.room ==> Sum(|s.pcs|, RoomIn(s')) == Sum(|s.pcs|, RoomIn(s))
  {
    if s'.pcs == s.pcs {
      SumSame(|s.pcs|, Wants(s'), Wants(s));
    }
    if s'.table == s.table && s'.room == s.room {
      SumSame(|s.pcs|, RoomIn(s'), RoomIn(s));
    }
  }

  /** Sending takes one from both sides. */
  lemma DoomedSend(cfg: Setup, s: State, i: nat, j: nat)
    requires Good(cfg, s) && Enabled(cfg, s, Send(i, j)) && Doomed(s)
    ensures Doomed(Apply(cfg, s, Send(i, j)))
  {
    hide Sum, LineOk;
    SelectIsOpen(cfg, s, i, j);
    CasesAreTable(cfg, s, i);
    var s' := Apply(cfg, s, Send(i, j));
    WantsChange(s, s', i);
    RoomChange(cfg, s, s', j);
  }

  /** If nothing behind the mixers drops events, no step leads out of a doomed state. */
  lemma DoomedStays(cfg: Setup, s: State, st: Step)
    requires Good(cfg, s) && Enabled(cfg, s, st) && Doomed(s) && cfg.keeps
    ensures Doomed(Apply(cfg, s, st))
  {
    assert Fits(cfg, s);
    hide Sum, Good;
    var s' := Apply(cfg, s, st);
    match st
    case Send(i, j) =>
      DoomedSend(cfg, s, i, j);
    case Delete(_) =>
      NoWants(s);
    case Register =>
      NoWants(s);
    case Claim =>
      SameSums(s, s');
    case Start =>
    case Absorb(_) =>
    case _ =>
      SameSums(s, s');
      WantsChange(s, s', st.i);
  }

  lemma CasesAreTable(cfg: Setup, s: State, i: nat)
    requires Good(cfg, s) && i < |s.pcs| && s.pcs[i].Selecting?
    ensures s.pcs[i].cases == s.table && i in s.table
  {
    assert LineOk(s, i);
  }

  /** The steps left for the lock to become free for line `k`. */
  function Toil(pc: Pc): nat {
    match pc
    case Reading(_) => 3
    case Selecting(_, _) => 2
    case Sent => 1
    case Waiting => 1
    case _ => 0
  }

  function Toils(s: State): nat -> nat {
    (i: nat) => if i < |s.pcs| then Toil(s.pcs[i]) else 0
  }

  function Ahead(s: State): nat {
    Sum(|s.pcs|, Toils(s)) + if s.main.Building? then 1 else 0
  }

  lemma ToilsChange(s: State, s': State, i: nat)
    requires i < |s.pcs| == |s'.pcs| && forall x :: 0 <= x < |s.pcs| && x != i ==> s'.pcs[x] == s.pcs[x]
    ensures Sum(|s.pcs|, Toils(s')) == Sum(|s.pcs|, Toils(s)) - Toils(s)(i) + Toils(s')(i)
  {
    SumChange(|s.pcs|, Toils(s), Toils(s'), i);
  }

  /** Someone who selects while the state is not doomed finds room. */
  lemma FindRoom(cfg: Setup, s: State, i: nat) returns (j: nat)
    requires Good(cfg, s) && i < |s.pcs| && s.pcs[i].Selecting?
    requires Sum(|s.pcs|, Wants(s)) <= Sum(|s.pcs|, RoomIn(s))
    ensures Enabled(cfg, s, Send(i, j))
  {
    SumZero(|s.pcs|, Wants(s));
    assert Wants(s)(i) == 1;
    SumZero(|s.pcs|, RoomIn(s));
    j :| j < |s.pcs| && RoomIn(s)(j) > 0;
    CasesAreTable(cfg, s, i);
  }

  /** One step towards the registration of the next line, which does not doom it. */
  lemma Approach(cfg: Setup, s: State) returns (st: Step)
    requires Good(cfg, s) && !Doomed(s) && !s.main.Started? && s.main.k < |s.pcs|
    ensures Enabled(cfg, s, st)
    ensures var s' := Apply(cfg, s, st);
            s'.main == Building(s.main.k + 1)
            || (!Doomed(s') && !s'.main.Started? && s'.main.k == s.main.k && Ahead(s') < Ahead(s))
  {
    if i: nat :| i < |s.pcs| && Reader(s.pcs[i]) {
      st := ReaderMoves(cfg, s, i);
    } else {
      assert NoReader(s);
      if s.main.Registering? {
        st := Register;
      } else if s.writer.Nobody? {
        st := Claim;
        SumSame(|s.pcs|, Toils(s), Toils(Apply(cfg, s, st)));
        NoWants(Apply(cfg, s, st));
      } else {
        var i := s.writer.i;
        assert LineOk(s, i);
        st := Delete(i);
        ToilsChange(s, Apply(cfg, s, st), i);
        NoWants(Apply(cfg, s, st));
      }
    }
  }

  lemma ReaderMoves(cfg: Setup, s: State, i: nat) returns (st: Step)
    requires Good(cfg, s) && !Doomed(s) && !s.main.Started? && s.main.k < |s.pcs| && i < |s.pcs| && Reader(s.pcs[i])
    ensures Enabled(cfg, s, st)
    ensures var s' := Apply(cfg, s, st); !Doomed(s') && s'.main == s.main && Ahead(s') < Ahead(s)
  {
    hide Sum, LineOk;
    if s.pcs[i].Selecting? {
      var j := FindRoom(cfg, s, i);
      st := Send(i, j);
      SelectIsOpen(cfg, s, i, j);
      CasesAreTable(cfg, s, i);
      RoomChange(cfg, s, Apply(cfg, s, st), j);
    } else {
      st := if s.pcs[i].Reading? then Snapshot(i) else RUnlock(i);
      SameSums(s, Apply(cfg, s, st));
    }
    WantsChange(s, Apply(cfg, s, st), i);
    ToilsChange(s, Apply(cfg, s, st), i);
  }

  lemma PathAppend(cfg: Setup, a: seq<State>, b: seq<State>)
    requires Path(cfg, a) && Path(cfg, b) && a[|a| - 1] == b[0]
    ensures Path(cfg, a + b[1..])
  {
    var all := a + b[1..];
    forall k | 0 <= k < |all| ensures Fits(cfg, all[k]) && (k >= |a| - 1 ==> all[k] == b[k - |a| + 1]) {
    }
    forall k | 0 <= k < |all| - 1 ensures Moves(cfg, all[k], all[k + 1]) {
      if k < |a| - 1 {
        assert Moves(cfg, a[k], a[k + 1]);
      } else {
        var m := k - |a| + 1;
        assert Moves(cfg, b[m], b[m + 1]);
      }
    }
  }

  lemma OneStep(cfg: Setup, s: State, st: Step)
    requires Fits(cfg, s) && Enabled(cfg, s, st)
    ensures Path(cfg, [s, Apply(cfg, s, st)])
  {
    assert Moves(cfg, s, Apply(cfg, s, st));
  }

  lemma {:induction false} CanRegister(cfg: Setup, s: State) returns (path: seq<State>)
    requires Good(cfg, s) && !Doomed(s) && !s.main.Started? && s.main.k < |s.pcs|
    ensures path != [] && Path(cfg, path) && path[0] == s && path[|path| - 1].main == Building(s.main.k + 1)
    decreases Ahead(s)
  {
    hide Doomed, Ahead, Path;
    var st := Approach(cfg, s);
    var s' := Apply(cfg, s, st);
    OneStep(cfg, s, st);
    path := [s, s'];
    if s'.main != Building(s.main.k + 1) {
      GoodStep(cfg, s, st);
      var rest := CanRegister(cfg, s');
      PathAppend(cfg, path, rest);
      path := path + rest[1..];
    }
  }

  /** When nothing behind the mixers drops events: from a state of a run in which a line is still to be registered,
      its registration can be reached if and only if the state is not doomed. */
  lemma RegistersIff(cfg: Setup, states: seq<State>, n: nat)
    requires Run(cfg, states) && n < |states| && cfg.keeps
    requires !states[n].main.Started? && states[n].main.k < |cfg.room|
    ensures (exists path: seq<State> ::
               Path(cfg, path) && path[0] == states[n] && path[|path| - 1].main == Building(states[n].main.k + 1))
            <==> !Doomed(states[n])
  {
    GoodAlways(cfg, states);
    var s := states[n];
    if Doomed(s) {
      forall path: seq<State> | Path(cfg, path) && path[0] == s
        ensures path[|path| - 1].main != Building(s.main.k + 1) {
        StaysUnregistered(cfg, path, |path| - 1);
      }
    } else {
      var path := CanRegister(cfg, s);
    }
  }

  /** From a doomed state the number of registered lines stays what it is: the lines' end is never read. */
  lemma {:induction false} StaysUnregistered(cfg: Setup, path: seq<State>, k: nat)
    requires Path(cfg, path) && Good(cfg, path[0]) && Doomed(path[0]) && cfg.keeps && k < |path|
    ensures Good(cfg, path[k]) && Doomed(path[k]) && path[k].main.k == path[0].main.k
  {
    hide Good, Doomed;
    if k > 0 {
      StaysUnregistered(cfg, path, k - 1);
      assert Moves(cfg, path[k - 1], path[k - 1 + 1]);
      var st :| Enabled(cfg, path[k - 1], st) && path[k] == Apply(cfg, path[k - 1], st);
      UnregisteredStep(cfg, path[k - 1], st);
    }
  }

  lemma UnregisteredStep(cfg: Setup, s: State, st: Step)
    requires Good(cfg, s) && Doomed(s) && cfg.keeps && Enabled(cfg, s, st)
    ensures var s' := Apply(cfg, s, st); Good(cfg, s') && Doomed(s') && s'.main.k == s.main.k
  {
    GoodStep(cfg, s, st);
    DoomedStays(cfg, s, st);
    if st.Register? {
      NoWants(s);
    }
  }

  /** Line 0's mixer is idle and line 1 is not registered. */
  ghost predicate FirstAlone(cfg: Setup, s: State) {
    && Good(cfg, s) && |cfg.room| >= 2 && s.main == Building(1) && s.writer.Nobody? && s.pcs[0].Ranging?
    && s.table == {0}
  }

  lemma Extend(cfg: Setup, path: seq<State>, st: Step) returns (path': seq<State>, s': State)
    requires path != [] && Path(cfg, path) && Good(cfg, path[|path| - 1]) && Enabled(cfg, path[|path| - 1], st)
    ensures s' == Apply(cfg, path[|path| - 1], st) && path' == path + [s']
    ensures Path(cfg, path') && Good(cfg, path'[|path'| - 1])
  {
    s' := Apply(cfg, path[|path| - 1], st);
    OneStep(cfg, path[|path| - 1], st);
    PathAppend(cfg, path, [path[|path| - 1], s']);
    path' := path + [s'];
    assert [path[|path| - 1], s'][1..] == [s'];
    GoodStep(cfg, path[|path| - 1], st);
  }

  /** It takes an event, and sends it to its own line if there is room. */
  lemma FirstRound(cfg: Setup, s: State) returns (path: seq<State>, s': State)
    requires FirstAlone(cfg, s)
    ensures path != [] && Path(cfg, path) && path[0] == s && path[|path| - 1] == s'
    ensures if s.room[0] == 0 then Doomed(s') else FirstAlone(cfg, s') && s'.room[0] == s.room[0] - 1
  {
    OneState(cfg, s);
    hide Good, Path, Doomed, Sum, LineOk;
    path, s' := Extend(cfg, [s], Take(0, 7));
    path, s' := Extend(cfg, path, RLock(0));
    if s.room[0] == 0 {
      Full(s');
    } else {
      path, s' := Extend(cfg, path, Snapshot(0));
      path, s' := Extend(cfg, path, Send(0, 0));
      path, s' := Extend(cfg, path, RUnlock(0));
    }
  }

  lemma OneState(cfg: Setup, s: State)
    requires Good(cfg, s)
    ensures Path(cfg, [s]) && Fits(cfg, s) && !s.panicked
  {
  }

  /** It goes on until the room behind its line is used up. */
  lemma {:induction false} FirstLineFills(cfg: Setup, s: State) returns (path: seq<State>)
    requires FirstAlone(cfg, s)
    ensures path != [] && Path(cfg, path) && path[0] == s && Doomed(path[|path| - 1])
    decreases s.room[0]
  {
    OneState(cfg, s);
    hide Good, Path, Doomed, Sum;
    var s';
    path, s' := FirstRound(cfg, s);
    if s.room[0] > 0 {
      var rest := FirstLineFills(cfg, s');
      PathAppend(cfg, path, rest);
      path := path + rest[1..];
    }
  }

  lemma Full(s: State)
    requires |s.pcs| == |s.room| >= 2 && s.main == Building(1) && s.table == {0} && s.room[0] == 0 && s.pcs[0].Reading?
    ensures Doomed(s)
  {
    SumZero(|s.pcs|, RoomIn(s));
    SumZero(|s.pcs|, Wants(s));
    assert Wants(s)(0) == 1;
  }

  /** With at least two lines, and however much room there is behind the first: a run exists that ends in a doomed
      state. */
  lemma AssemblyCanHang(cfg: Setup) returns (path: seq<State>)
    requires |cfg.room| >= 2
    ensures path != [] && Path(cfg, path) && path[0] == Initial(cfg) && Doomed(path[|path| - 1])
  {
    var s := Initial(cfg);
    assert Run(cfg, [s]);
    GoodAlways(cfg, [s]);
    assert [s][0] == s;
    hide Good, Doomed, Path, Run;
    var front, s' := Extend(cfg, [s], Claim);
    front, s' := Extend(cfg, front, Register);
    assert s'.table == {0};
    var rest := FirstLineFills(cfg, s');
    PathAppend(cfg, front, rest);
    path := front + rest[1..];
  }

  lemma DoomedNeedsTwo(cfg: Setup, s: State)
    requires Good(cfg, s) && Doomed(s)
    ensures |cfg.room| >= 2
  {
    SumZero(|s.pcs|, Wants(s));
    var i: nat :| i < |s.pcs| && Wants(s)(i) > 0;
    assert LineOk(s, i);
  }

  /** What can be told before a pipeline is started: some run of its assembly gets into a doomed state if and only if
      it has at least two lines with a mixer at this place. */
  lemma HangsIff(cfg: Setup)
    ensures (exists path: seq<State> :: Run(cfg, path) && Doomed(path[|path| - 1])) <==> |cfg.room| >= 2
  {
    if |cfg.room| >= 2 {
      var path := AssemblyCanHang(cfg);
      assert Run(cfg, path);
    }
    forall path: seq<State> | Run(cfg, path) && Doomed(path[|path| - 1]) ensures |cfg.room| >= 2 {
      GoodAlways(cfg, path);
      DoomedNeedsTwo(cfg, path[|path| - 1]);
    }
  }

  /** A line is still to be registered, and whatever happens next, it never is. */
  ghost predicate Hung(cfg: Setup, s: State) {
    && !s.main.Started? && s.main.k < |s.pcs|
    && forall path: seq<State> :: Path(cfg, path) && path[0] == s ==> path[|path| - 1].main != Building(s.main.k + 1)
  }

  lemma HungIff(cfg: Setup, states: seq<State>)
    requires Run(cfg, states) && cfg.keeps
    ensures Hung(cfg, states[|states| - 1]) <==> Doomed(states[|states| - 1])
  {
    var s := states[|states| - 1];
    hide Doomed;
    if !s.main.Started? && s.main.k < |s.pcs| {
      LastFits(cfg, states);
      RegistersIff(cfg, states, |states| - 1);
    }
  }

  lemma LastFits(cfg: Setup, states: seq<State>)
    requires Run(cfg, states)
    ensures Fits(cfg, states[|states| - 1])
  {
  }

  /** If nothing behind the mixers drops events: the assembly of a pipeline can hang for good if and only if it has at
      least two lines with a mixer at this place, however much room there is. */
  lemma HangsForGoodIff(cfg: Setup)
    requires cfg.keeps
    ensures (exists path: seq<State> :: Run(cfg, path) && Hung(cfg, path[|path| - 1])) <==> |cfg.room| >= 2
  {
    hide Hung, Doomed;
    HangsIff(cfg);
    if path: seq<State> :| Run(cfg, path) && Doomed(path[|path| - 1]) {
      HungIff(cfg, path);
    }
    forall path: seq<State> | Run(cfg, path) && Hung(cfg, path[|path| - 1]) ensures |cfg.room| >= 2 {
      HungIff(cfg, path);
    }
  }

  // ---- Events that are dropped make room ----

  /** Room behind one's own line, and the event sent there. */
  lemma MakeRoom(cfg: Setup, s: State, i: nat) returns (path: seq<State>, s': State)
    requires Good(cfg, s) && !cfg.keeps && i < |s.pcs| && s.pcs[i].Selecting? && cfg.room[i] >= 1
    ensures path != [] && Path(cfg, path) && path[0] == s && path[|path| - 1] == s' && Good(cfg, s')
    ensures s'.pcs == s.pcs[i := Sent] && s'.main == s.main && s'.writer == s.writer && s'.table == s.table
  {
    CasesAreTable(cfg, s, i);
    SelectIsOpen(cfg, s, i, i);
    OneState(cfg, s);
    hide Good, Path, LineOk;
    path, s' := [s], s;
    if s.room[i] == 0 {
      path, s' := Extend(cfg, path, Absorb(i));
    }
    path, s' := Extend(cfg, path, Send(i, i));
  }

  /** Some steps towards the registration of the next line. */
  lemma ApproachFreely(cfg: Setup, s: State) returns (path: seq<State>, s': State)
    requires Good(cfg, s) && !cfg.keeps && !s.main.Started? && s.main.k < |s.pcs|
    requires forall j :: 0 <= j < |cfg.room| ==> cfg.room[j] >= 1
    ensures path != [] && Path(cfg, path) && path[0] == s && path[|path| - 1] == s' && Good(cfg, s')
    ensures s'.main == Building(s.main.k + 1)
            || (!s'.main.Started? && s'.main.k == s.main.k && Ahead(s') < Ahead(s))
  {
    OneState(cfg, s);
    hide Path, Ahead, LineOk;
    if i: nat :| i < |s.pcs| && Reader(s.pcs[i]) {
      path, s' := ReaderGoesOn(cfg, s, i);
    } else {
      path, s' := LockGoesOn(cfg, s);
    }
  }

  lemma ReaderGoesOn(cfg: Setup, s: State, i: nat) returns (path: seq<State>, s': State)
    requires Good(cfg, s) && !cfg.keeps && i < |s.pcs| && Reader(s.pcs[i]) && cfg.room[i] >= 1
    ensures path != [] && Path(cfg, path) && path[0] == s && path[|path| - 1] == s' && Good(cfg, s')
    ensures s'.main == s.main && Ahead(s') < Ahead(s)
  {
    OneState(cfg, s);
    hide Good, Path, Sum;
    if s.pcs[i].Selecting? {
      path, s' := MakeRoom(cfg, s, i);
    } else {
      path, s' := Extend(cfg, [s], if s.pcs[i].Reading? then Snapshot(i) else RUnlock(i));
    }
    ToilsChange(s, s', i);
  }

  lemma LockGoesOn(cfg: Setup, s: State) returns (path: seq<State>, s': State)
    requires Good(cfg, s) && !s.main.Started? && s.main.k < |s.pcs| && NoReader(s)
    ensures path != [] && Path(cfg, path) && path[0] == s && path[|path| - 1] == s' && Good(cfg, s')
    ensures s'.main == Building(s.main.k + 1)
            || (!s'.main.Started? && s'.main.k == s.main.k && Ahead(s') < Ahead(s))
  {
    OneState(cfg, s);
    if s.writer.Line? {
      assert LineOk(s, s.writer.i);
    }
    assert s.writer.Main? <==> s.main.Registering?;
    hide Good, Path, Sum, LineOk;
    if s.main.Registering? {
      path, s' := Extend(cfg, [s], Register);
    } else if s.writer.Nobody? {
      path, s' := Extend(cfg, [s], Claim);
      SumSame(|s.pcs|, Toils(s), Toils(s'));
    } else {
      path, s' := Extend(cfg, [s], Delete(s.writer.i));
      ToilsChange(s, s', s.writer.i);
    }
  }

  lemma {:induction false} CanRegisterFreely(cfg: Setup, s: State) returns (path: seq<State>)
    requires Good(cfg, s) && !cfg.keeps && !s.main.Started? && s.main.k < |s.pcs|
    requires forall j :: 0 <= j < |cfg.room| ==> cfg.room[j] >= 1
    ensures path != [] && Path(cfg, path) && path[0] == s && path[|path| - 1].main == Building(s.main.k + 1)
    decreases Ahead(s)
  {
    LastFitsGood(cfg, s);
    hide Good, Path, Ahead;
    var s';
    path, s' := ApproachFreely(cfg, s);
    LastFitsGood(cfg, s');
    if s'.main != Building(s.main.k + 1) {
      var rest := CanRegisterFreely(cfg, s');
      PathAppend(cfg, path, rest);
      path := path + rest[1..];
    }
  }

  lemma LastFitsGood(cfg: Setup, s: State)
    requires Good(cfg, s)
    ensures Fits(cfg, s)
  {
  }

  /** If what is behind the mixers may drop events, and there is room for one behind every line: from every state of
      every run the next line can still be registered. */
  lemma NeverHungFreely(cfg: Setup, states: seq<State>)
    requires Run(cfg, states) && !cfg.keeps && forall j :: 0 <= j < |cfg.room| ==> cfg.room[j] >= 1
    ensures !Hung(cfg, states[|states| - 1])
  {
    GoodAlways(cfg, states);
    var s := states[|states| - 1];
    hide Good;
    if !s.main.Started? && s.main.k < |s.pcs| {
      var path := CanRegisterFreely(cfg, s);
    }
  }

  // ---- After the assembly ----

  /** A step of the mixers, their units or the reader behind the lines. */
  predicate Internal(st: Step) {
    !st.Take? && !st.EndInput?
  }

  function Load(pc: Pc): nat {
    match pc
    case Taken(_) => 6
    case Reading(_) => 5
    case Selecting(_, _) => 4
    case Ended => 3
    case Sent => 2
    case Waiting => 2
    case Ranging => 1
    case Returned => 1
    case _ => 0
  }

  function Loads(s: State): nat -> nat {
    (i: nat) => if i < |s.pcs| then Load(s.pcs[i]) else 0
  }

  /** The events that wait behind line j's output. */
  function Behind(cfg: Setup, s: State): nat -> nat {
    (j: nat) => if j < |s.room| == |cfg.room| && s.room[j] <= cfg.room[j] then cfg.room[j] - s.room[j] else 0
  }

  function Work(cfg: Setup, s: State): nat {
    Sum(|s.pcs|, Loads(s)) + Sum(|s.pcs|, Behind(cfg, s))
  }

  lemma LoadsChange(cfg: Setup, s: State, s': State, i: nat)
    requires i < |s.pcs| == |s'.pcs| && forall x :: 0 <= x < |s.pcs| && x != i ==> s'.pcs[x] == s.pcs[x]
    ensures Sum(|s.pcs|, Loads(s')) == Sum(|s.pcs|, Loads(s)) - Load(s.pcs[i]) + Load(s'.pcs[i])
    ensures s'.room == s.room ==> Sum(|s.pcs|, Behind(cfg, s')) == Sum(|s.pcs|, Behind(cfg, s))
  {
    SumChange(|s.pcs|, Loads(s), Loads(s'), i);
    if s'.room == s.room {
      SumSame(|s.pcs|, Behind(cfg, s'), Behind(cfg, s));
    }
  }

  lemma BehindChange(cfg: Setup, s: State, s': State, j: nat)
    requires Good(cfg, s) && Fits(cfg, s') && j < |s.pcs| && s'.room[j] <= cfg.room[j]
    requires forall x :: 0 <= x < |s.room| && x != j ==> s'.room[x] == s.room[x]
    ensures Sum(|s.pcs|, Behind(cfg, s')) == Sum(|s.pcs|, Behind(cfg, s)) + s.room[j] - s'.room[j]
    ensures s'.pcs == s.pcs ==> Sum(|s.pcs|, Loads(s')) == Sum(|s.pcs|, Loads(s))
  {
    SumChange(|s.pcs|, Behind(cfg, s), Behind(cfg, s'), j);
    if s'.pcs == s.pcs {
      SumSame(|s.pcs|, Loads(s'), Loads(s));
    }
  }

  /** Once the pipeline is assembled, with room for at least one event behind every line: until every mixer waits
      for an event or is done, some step is possible that leaves less work. */
  lemma NeverHangs(cfg: Setup, states: seq<State>, k: nat, i: nat) returns (st: Step)
    requires Run(cfg, states) && k < |states| && states[k].main.Started?
    requires forall j :: 0 <= j < |cfg.room| ==> cfg.room[j] >= 1
    requires i < |cfg.room| && !states[k].pcs[i].Ranging? && !states[k].pcs[i].Closed?
    ensures Internal(st) && Enabled(cfg, states[k], st)
    ensures Work(cfg, Apply(cfg, states[k], st)) < Work(cfg, states[k])
  {
    GoodAlways(cfg, states);
    st := Works(cfg, states[k], i);
  }

  lemma Works(cfg: Setup, s: State, i: nat) returns (st: Step)
    requires Good(cfg, s) && s.main.Started? && forall j :: 0 <= j < |cfg.room| ==> cfg.room[j] >= 1
    requires i < |cfg.room| && !s.pcs[i].Ranging? && !s.pcs[i].Closed?
    ensures Internal(st) && Enabled(cfg, s, st) && Work(cfg, Apply(cfg, s, st)) < Work(cfg, s)
  {
    hide Sum;
    assert LineOk(s, i);
    if r: nat :| r < |s.pcs| && Reader(s.pcs[r]) {
      st := ReaderWorks(cfg, s, r);
    } else {
      var m := if s.writer.Line? then s.writer.i else i;
      assert LineOk(s, m);
      st := if s.writer.Line? then Delete(m)
            else match s.pcs[i] case Taken(_) => RLock(i) case Ended => Lock(i) case _ => Close(i);
      LoadsChange(cfg, s, Apply(cfg, s, st), m);
    }
  }

  lemma ReaderWorks(cfg: Setup, s: State, i: nat) returns (st: Step)
    requires Good(cfg, s) && s.main.Started? && i < |s.pcs| && Reader(s.pcs[i]) && cfg.room[i] >= 1
    ensures Internal(st) && Enabled(cfg, s, st) && Work(cfg, Apply(cfg, s, st)) < Work(cfg, s)
  {
    hide Sum, LineOk;
    if s.pcs[i].Selecting? {
      CasesAreTable(cfg, s, i);
      if s.room[i] > 0 {
        st := Send(i, i);
        LoadsChange(cfg, s, Apply(cfg, s, st), i);
      } else {
        st := Absorb(i);
      }
      BehindChange(cfg, s, Apply(cfg, s, st), i);
    } else {
      st := if s.pcs[i].Reading? then Snapshot(i) else RUnlock(i);
      LoadsChange(cfg, s, Apply(cfg, s, st), i);
    }
  }
}
