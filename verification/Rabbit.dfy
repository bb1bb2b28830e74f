/** The RabbitMQ input (plugins/inputs/rabbitmq/consumer.go): a consumer that parses deliveries into events, and
    an acker that acknowledges a delivery when all its events are done. */
module Rabbit {
  import opened Tokens
  import opened Delivery

  // ---- The acker ----

  /** `acks` maps a delivery tag to the events still to be done; `held` are the tokens of the semaphore; `acked`
      is the history of the tags on which `Ack` was called. */
  datatype Acks = Acks(acks: map<nat, nat>, held: nat, exit: bool, done: bool, acked: seq<nat>)

  function Fetched(a: Acks, tag: nat, events: nat): Acks {
    a.(acks := a.acks[tag := events])
  }

  function Acked(a: Acks, tag: nat): Acks
    requires a.held > 0
  {
    a.(acks := a.acks - {tag}, held := a.held - 1, acked := a.acked + [tag])
  }

  /** One signal for the tag; a tag that has at most one event left is acknowledged. */
  function Signal(a: Acks, tag: nat): Acks
    requires a.held > 0
  {
    var a' := if tag !in a.acks then a
              else if a.acks[tag] > 1 then a.(acks := a.acks[tag := a.acks[tag] - 1])
              else Acked(a, tag);
    a'.(done := a'.exit && a'.held == 0)
  }

  function Exited(a: Acks): Acks {
    a.(exit := true, done := a.held == 0)
  }

  class Acker {
    var acks: map<nat, nat>
    const ackSemaphore: Semaphore
    var exitIfQueueEmpty: bool
    var doneClosed: bool
    ghost var acked: seq<nat>

    ghost function View(): Acks
      reads this, ackSemaphore
    {
      Acks(acks, ackSemaphore.held, exitIfQueueEmpty, doneClosed, acked)
    }

    constructor (semaphore: Semaphore)
      ensures View() == Acks(map[], semaphore.held, false, false, []) && ackSemaphore == semaphore
    {
      acks := map[];
      ackSemaphore := semaphore;
      exitIfQueueEmpty, doneClosed := false, false;
      acked := [];
    }

    /** A message was consumed. */
    method OnFetched(tag: nat, events: nat)
      requires !doneClosed
      modifies this
      ensures View() == Fetched(old(View()), tag, events)
    {
      acks := acks[tag := events];
    }

    /** A signal arrived. Each tracked delivery holds a token, so taking one back does not block. */
    method OnDelivered(tag: nat)
      requires !doneClosed && ackSemaphore.held > 0
      modifies this, ackSemaphore
      ensures View() == Signal(old(View()), tag)
    {
      var delivered := false;
      if tag in acks {
        if acks[tag] == 0 {
          delivered := true;
        } else {
          acks := acks[tag := acks[tag] - 1];
          if acks[tag] == 0 {
            delivered := true;
          }
        }
      }
      if delivered {
        acked := acked + [tag];
        acks := acks - {tag};
        ackSemaphore.Release();
        assert acks == old(acks) - {tag};
      }
      if exitIfQueueEmpty && ackSemaphore.held == 0 {
        doneClosed := true;
      }
    }

    /** The consumer left its loop. */
    method OnExit()
      requires !doneClosed
      modifies this
      ensures View() == Exited(old(View()))
    {
      exitIfQueueEmpty := true;
      if ackSemaphore.held == 0 {
        doneClosed := true;
      }
    }
  }

  // ---- The protocol ----

  /** A fetched message: its events, and whether the consumer still owes the one signal of a message without any. */
  datatype Msg = Msg(evs: seq<Ev>, self: bool)

  /** Where the consumer's goroutine is. */
  datatype Consumer =
    | Idle
    | Acquiring(events: nat)
    | HandingOff(events: nat)
    | SelfSignal
    | Emitting(k: nat)
    | Exiting
    | AwaitDone
    | Left

  /** Delivery tags are unique, so a message's tag is its position in `msgs`. */
  datatype State = State(msgs: seq<Msg>, consumer: Consumer, acker: Acks)

  datatype Step =
    | Consume(events: nat)
    | Acquire
    | HandOff
    | Self
    | Emit
    | Copy(m: nat, i: nat)
    | FinishCopy(m: nat, i: nat)
    | Fire(m: nat, i: nat)
    | CloseInput
    | SendExit
    | Leave

  predicate Event(s: State, m: nat, i: nat) {
    m < |s.msgs| && i < |s.msgs[m].evs|
  }

  /** The last message is the one that the consumer is busy with. */
  function Last(s: State): nat {
    if s.msgs == [] then 0 else |s.msgs| - 1
  }

  predicate Enabled(capacity: nat, s: State, st: Step) {
    match st
    case Consume(_) => s.consumer.Idle?
    case Acquire => s.consumer.Acquiring? && s.acker.held < capacity
    case HandOff => s.consumer.HandingOff? && !s.acker.done
    case Self => s.consumer.SelfSignal? && s.msgs != [] && !s.acker.done
    case Emit => s.consumer.Emitting? && Event(s, Last(s), s.consumer.k)
    case Copy(m, i) => Event(s, m, i) && s.msgs[m].evs[i].Live?
    case FinishCopy(m, i) => Event(s, m, i) && s.msgs[m].evs[i].Live?
    case Fire(m, i) => Event(s, m, i) && s.msgs[m].evs[i].Firing? && !s.acker.done
    case CloseInput => s.consumer.Idle?
    case SendExit => s.consumer.Exiting? && !s.acker.done
    case Leave => s.consumer.AwaitDone? && s.acker.done
  }

  function SetEv(s: State, m: nat, i: nat, e: Ev): State
    requires Event(s, m, i)
  {
    s.(msgs := s.msgs[m := s.msgs[m].(evs := s.msgs[m].evs[i := e])])
  }

  /** The acker's share of a signal; without a token it would block for good. */
  function Deliver(a: Acks, m: nat): Acks {
    if a.held > 0 then Signal(a, m) else a
  }

  function Apply(capacity: nat, s: State, st: Step): State
    requires Enabled(capacity, s, st)
  {
    match st
    case Consume(n) => s.(consumer := Acquiring(n))
    case Acquire => s.(consumer := HandingOff(s.consumer.events), acker := s.acker.(held := s.acker.held + 1))
    case HandOff =>
      var n := s.consumer.events;
      State(s.msgs + [Msg(Fresh(n), n == 0)], if n == 0 then SelfSignal else Emitting(0), Fetched(s.acker, |s.msgs|, n))
    case Self =>
      var m := Last(s);
      State(s.msgs[m := s.msgs[m].(self := false)], Idle, Deliver(s.acker, m))
    case Emit =>
      var m, k := Last(s), s.consumer.k;
      SetEv(s, m, k, Live(1)).(consumer := if k + 1 == |s.msgs[m].evs| then Idle else Emitting(k + 1))
    case Copy(m, i) => SetEv(s, m, i, Live(s.msgs[m].evs[i].copies + 1))
    case FinishCopy(m, i) => SetEv(s, m, i, Finish(s.msgs[m].evs[i]))
    case Fire(m, i) => SetEv(s, m, i, Signalled).(acker := Deliver(s.acker, m))
    case CloseInput => s.(consumer := Exiting)
    case SendExit => s.(consumer := AwaitDone, acker := Exited(s.acker))
    case Leave => s.(consumer := Left)
  }

  function Initial(): State {
    State([], Idle, Acks(map[], 0, false, false, []))
  }

  ghost predicate Run(capacity: nat, trace: seq<State>, steps: seq<Step>) {
    && |trace| == |steps| + 1 && trace[0] == Initial()
    && forall k :: 0 <= k < |steps| ==>
         Enabled(capacity, trace[k], steps[k]) && trace[k + 1] == Apply(capacity, trace[k], steps[k])
  }

  // ---- What every step keeps ----

  /** The signals that a message is still to send. */
  function Outstanding(msg: Msg): nat {
    Open(msg.evs) + if msg.self then 1 else 0
  }

  function Expected(events: nat): nat {
    if events == 0 then 1 else events
  }

  predicate InTransit(c: Consumer) {
    c.HandingOff?
  }

  /** A message is tracked while a signal is outstanding, for exactly its number of open events, or 1 if it has
      none; it has been acknowledged, once, when none is. */
  ghost predicate MsgOk(s: State, m: nat)
    requires m < |s.msgs|
  {
    var msg := s.msgs[m];
    && (msg.self ==> msg.evs == [])
    && (m in s.acker.acks ==>
          Outstanding(msg) == Expected(s.acker.acks[m]) && (s.acker.acks[m] == 0 <==> msg.self))
    && (m !in s.acker.acks ==> Outstanding(msg) == 0)
    && multiset(s.acker.acked)[m] == (if m in s.acker.acks then 0 else 1)
  }

  /** What the consumer is busy with: only its own message has events that are not emitted, or an owed signal. */
  ghost predicate ConsumerOk(s: State) {
    && (s.consumer.SelfSignal? ==> s.msgs != [] && s.msgs[Last(s)].self)
    && (s.consumer.Emitting? ==>
          && s.msgs != [] && s.consumer.k < |s.msgs[Last(s)].evs|
          && forall i :: s.consumer.k <= i < |s.msgs[Last(s)].evs| ==> s.msgs[Last(s)].evs[i].Unsent?)
    && (forall m, i :: 0 <= m < |s.msgs| && 0 <= i < |s.msgs[m].evs| && s.msgs[m].evs[i].Unsent? ==>
          s.consumer.Emitting? && m == Last(s) && i >= s.consumer.k)
    && forall m :: 0 <= m < |s.msgs| && s.msgs[m].self ==> s.consumer.SelfSignal? && m == Last(s)
  }

  ghost predicate AckerOk(capacity: nat, s: State) {
    && s.acker.held == |s.acker.acks| + (if InTransit(s.consumer) then 1 else 0) <= capacity
    && (forall m <- s.acker.acks :: m < |s.msgs|)
    && (forall m <- s.acker.acked :: m < |s.msgs|)
    && (s.acker.exit <==> s.consumer.AwaitDone? || s.consumer.Left?)
    && (s.acker.done <==> s.acker.exit && s.acker.held == 0)
  }

  ghost predicate Safe(capacity: nat, s: State) {
    && AckerOk(capacity, s) && ConsumerOk(s)
    && forall m :: 0 <= m < |s.msgs| ==> MsgOk(s, m)
  }

  lemma Tracks(acks: map<nat, nat>, m: nat, n: nat)
    ensures m in acks ==> |acks| >= 1 && |acks - {m}| == |acks| - 1 && |acks[m := n]| == |acks|
    ensures m !in acks ==> |acks[m := n]| == |acks| + 1
  {
    if m in acks {
      assert (acks - {m}).Keys == acks.Keys - {m};
      assert acks[m := n].Keys == acks.Keys;
    } else {
      assert acks[m := n].Keys == acks.Keys + {m};
    }
  }

  lemma OpenOfFresh(n: nat)
    ensures Open(Fresh(n)) == n
  {
    OpenOfUnsent(Fresh(n));
  }

  /** The acker's own state after one signal of message m. */
  lemma DeliverCounts(capacity: nat, s: State, m: nat)
    requires Safe(capacity, s) && m < |s.msgs| && !s.acker.done && Outstanding(s.msgs[m]) > 0
    ensures m in s.acker.acks && s.acker.held > 0
    ensures var a := Deliver(s.acker, m);
            && a.held == |a.acks| + (if InTransit(s.consumer) then 1 else 0) <= capacity
            && a.acks.Keys <= s.acker.acks.Keys && (forall x <- a.acked :: x < |s.msgs|)
            && a.exit == s.acker.exit && (a.done <==> a.exit && a.held == 0)
  {
    hide Open;
    assert MsgOk(s, m);
    var n := s.acker.acks[m];
    Tracks(s.acker.acks, m, if n > 1 then n - 1 else 0);
  }

  /** One signal of message m reaches the acker. */
  lemma DeliverKeeps(capacity: nat, s: State, m: nat, msg: Msg, s': State, x: nat)
    requires Safe(capacity, s) && m < |s.msgs| && !s.acker.done && x < |s.msgs|
    requires Outstanding(msg) == Outstanding(s.msgs[m]) - 1 && (msg.self ==> s.msgs[m].self)
             && |msg.evs| == |s.msgs[m].evs|
    requires s'.msgs == s.msgs[m := msg] && s'.acker == Deliver(s.acker, m)
    ensures MsgOk(s', x)
  {
    DeliverCounts(capacity, s, m);
    hide Open;
    assert MsgOk(s, m) && MsgOk(s, x);
  }

  lemma SafeHandOff(capacity: nat, s: State)
    requires Safe(capacity, s) && Enabled(capacity, s, HandOff)
    ensures Safe(capacity, Apply(capacity, s, HandOff))
  {
    hide Open;
    var s', n, tag := Apply(capacity, s, HandOff), s.consumer.events, |s.msgs|;
    Tracks(s.acker.acks, tag, n);
    OpenOfFresh(n);
    assert s'.msgs[tag] == Msg(Fresh(n), n == 0);
    assert tag !in s.acker.acked;
    forall x: nat | x < |s'.msgs| ensures MsgOk(s', x) {
      if x < tag {
        assert MsgOk(s, x);
      }
    }
  }

  lemma SafeSelf(capacity: nat, s: State)
    requires Safe(capacity, s) && Enabled(capacity, s, Self)
    ensures Safe(capacity, Apply(capacity, s, Self))
  {
    hide Open, MsgOk;
    var m, s' := Last(s), Apply(capacity, s, Self);
    DeliverCounts(capacity, s, m);
    forall x: nat | x < |s.msgs| ensures MsgOk(s', x) {
      DeliverKeeps(capacity, s, m, s.msgs[m].(self := false), s', x);
    }
  }

  /** An event that was emitted before does not concern the consumer. */
  lemma ConsumerStays(s: State, m: nat, i: nat, e: Ev)
    requires ConsumerOk(s) && Event(s, m, i) && !e.Unsent? && !s.msgs[m].evs[i].Unsent?
    ensures ConsumerOk(SetEv(s, m, i, e))
  {
  }

  lemma SafeFire(capacity: nat, s: State, m: nat, i: nat)
    requires Safe(capacity, s) && Enabled(capacity, s, Fire(m, i))
    ensures Safe(capacity, Apply(capacity, s, Fire(m, i)))
  {
    var msg := s.msgs[m];
    var msg' := msg.(evs := msg.evs[i := Signalled]);
    OpenOfUpdate(msg.evs, i, Signalled);
    assert Outstanding(msg') == Outstanding(msg) - 1;
    ConsumerStays(s, m, i, Signalled);
    hide Open, MsgOk, ConsumerOk;
    DeliverCounts(capacity, s, m);
    var s' := Apply(capacity, s, Fire(m, i));
    forall x: nat | x < |s.msgs| ensures MsgOk(s', x) {
      DeliverKeeps(capacity, s, m, msg', s', x);
    }
  }

  /** A step that keeps every message's outstanding signals and does not concern the acker. */
  lemma SafeEvent(capacity: nat, s: State, m: nat, i: nat, e: Ev)
    requires Safe(capacity, s) && Event(s, m, i) && !e.Unsent? && Weight(e) == Weight(s.msgs[m].evs[i])
    ensures forall x :: 0 <= x < |s.msgs| ==> MsgOk(SetEv(s, m, i, e), x)
  {
    OpenOfUpdate(s.msgs[m].evs, i, e);
    hide Open;
    forall x: nat | x < |s.msgs| ensures MsgOk(SetEv(s, m, i, e), x) {
      assert MsgOk(s, x);
    }
  }

  lemma SafeEmit(capacity: nat, s: State)
    requires Safe(capacity, s) && Enabled(capacity, s, Emit)
    ensures Safe(capacity, Apply(capacity, s, Emit))
  {
    var s' := Apply(capacity, s, Emit);
    SafeEvent(capacity, s, Last(s), s.consumer.k, Live(1));
    hide Open;
    forall x: nat | x < |s'.msgs| ensures MsgOk(s', x) {
      assert MsgOk(SetEv(s, Last(s), s.consumer.k, Live(1)), x);
    }
  }

  /** Copies come and go, the last one going makes the hook run. */
  lemma SafeCopies(capacity: nat, s: State, st: Step)
    requires Safe(capacity, s) && Enabled(capacity, s, st) && (st.Copy? || st.FinishCopy?)
    ensures Safe(capacity, Apply(capacity, s, st))
  {
    hide Open, MsgOk, ConsumerOk;
    var e := s.msgs[st.m].evs[st.i];
    var e' := if st.Copy? then Live(e.copies + 1) else Finish(e);
    SafeEvent(capacity, s, st.m, st.i, e');
    ConsumerStays(s, st.m, st.i, e');
  }

  lemma SafeStep(capacity: nat, s: State, st: Step)
    requires Safe(capacity, s) && Enabled(capacity, s, st)
    ensures Safe(capacity, Apply(capacity, s, st))
  {
    match st
    case HandOff => SafeHandOff(capacity, s);
    case Self => SafeSelf(capacity, s);
    case Emit => SafeEmit(capacity, s);
    case Copy(_, _) => SafeCopies(capacity, s, st);
    case FinishCopy(_, _) => SafeCopies(capacity, s, st);
    case Fire(m, i) => SafeFire(capacity, s, m, i);
    case _ => SafeConsumer(capacity, s, st);
  }

  lemma SafeConsumer(capacity: nat, s: State, st: Step)
    requires Safe(capacity, s) && Enabled(capacity, s, st)
    requires st.Consume? || st.Acquire? || st.CloseInput? || st.SendExit? || st.Leave?
    ensures Safe(capacity, Apply(capacity, s, st))
  {
    hide Open;
    forall x: nat | x < |s.msgs| ensures MsgOk(Apply(capacity, s, st), x) {
      assert MsgOk(s, x);
    }
  }

  lemma {:induction false} SafeAlways(capacity: nat, trace: seq<State>, steps: seq<Step>, k: nat)
    requires Run(capacity, trace, steps) && k < |trace|
    ensures Safe(capacity, trace[k])
  {
    if k > 0 {
      SafeAlways(capacity, trace, steps, k - 1);
      SafeStep(capacity, trace[k - 1], steps[k - 1]);
    }
  }

  // ---- Copies and their ends, counted ----

  /** How often a step was taken. */
  ghost function Times(steps: seq<Step>, st: Step): nat {
    multiset(steps)[st]
  }

  lemma TimesNext(steps: seq<Step>, k: nat, st: Step)
    requires k < |steps|
    ensures Times(steps[..k + 1], st) == Times(steps[..k], st) + if steps[k] == st then 1 else 0
  {
    assert steps[..k + 1] == steps[..k] + [steps[k]];
  }

  /** An event after c copies, d ends of copies and f signals; before it exists there is nothing to count. */
  ghost predicate Counted(s: State, m: nat, i: nat, c: nat, d: nat, f: nat) {
    if Event(s, m, i) then
      match s.msgs[m].evs[i]
      case Unsent => c == d == f == 0
      case Live(n) => d <= c && n == 1 + c - d && f == 0
      case Firing => d == c + 1 && f == 0
      case Signalled => d == c + 1 && f == 1
    else c == d == f == 0
  }

  /** What a step does to one event. */
  lemma EventStep(capacity: nat, s: State, st: Step, m: nat, i: nat)
    requires Enabled(capacity, s, st) && ConsumerOk(s) && Event(Apply(capacity, s, st), m, i)
    ensures var e := Apply(capacity, s, st).msgs[m].evs[i];
            if !Event(s, m, i) then e.Unsent? && st.HandOff?
            else
              var before := s.msgs[m].evs[i];
              if st == Copy(m, i) then before.Live? && e == Live(before.copies + 1)
              else if st == FinishCopy(m, i) then before.Live? && e == Finish(before)
              else if st == Fire(m, i) then before.Firing? && e.Signalled?
              else e == before || (before.Unsent? && e == Live(1))
  {
    if st.HandOff? {
      var s' := Apply(capacity, s, st);
      assert s'.msgs[..|s.msgs|] == s.msgs && s'.msgs[|s.msgs|].evs == Fresh(s.consumer.events);
    }
  }

  lemma StillNoEvent(capacity: nat, s: State, st: Step, m: nat, i: nat)
    requires Enabled(capacity, s, st) && !Event(Apply(capacity, s, st), m, i)
    ensures !Event(s, m, i) && st != Copy(m, i) && st != FinishCopy(m, i) && st != Fire(m, i)
  {
  }

  lemma CountedStep(capacity: nat, s: State, st: Step, m: nat, i: nat, c: nat, d: nat, f: nat)
    requires Enabled(capacity, s, st) && Safe(capacity, s) && Counted(s, m, i, c, d, f)
    ensures Counted(Apply(capacity, s, st), m, i, c + (if st == Copy(m, i) then 1 else 0),
                    d + (if st == FinishCopy(m, i) then 1 else 0), f + (if st == Fire(m, i) then 1 else 0))
  {
    if Event(Apply(capacity, s, st), m, i) {
      EventStep(capacity, s, st, m, i);
    } else {
      StillNoEvent(capacity, s, st, m, i);
    }
    hide Apply, Enabled, Safe;
  }

  lemma {:induction false} CountedAlways(capacity: nat, trace: seq<State>, steps: seq<Step>, k: nat, m: nat, i: nat)
    requires Run(capacity, trace, steps) && k < |trace|
    ensures Counted(trace[k], m, i, Times(steps[..k], Copy(m, i)), Times(steps[..k], FinishCopy(m, i)),
                    Times(steps[..k], Fire(m, i)))
  {
    hide Run, Times, Counted, Apply, Enabled, Safe;
    OneStep(capacity, trace, steps, k, m, i);
    if k > 0 {
      CountedAlways(capacity, trace, steps, k - 1, m, i);
      SafeAlways(capacity, trace, steps, k - 1);
      TimesNext(steps, k - 1, Copy(m, i));
      TimesNext(steps, k - 1, FinishCopy(m, i));
      TimesNext(steps, k - 1, Fire(m, i));
      CountedStep(capacity, trace[k - 1], steps[k - 1], m, i, Times(steps[..k - 1], Copy(m, i)),
                  Times(steps[..k - 1], FinishCopy(m, i)), Times(steps[..k - 1], Fire(m, i)));
    }
  }

  /** The k-th state of a run: the first one has no history, any other comes from a step. */
  lemma OneStep(capacity: nat, trace: seq<State>, steps: seq<Step>, k: nat, m: nat, i: nat)
    requires Run(capacity, trace, steps) && k < |trace|
    ensures |trace| == |steps| + 1
    ensures k > 0 ==> Enabled(capacity, trace[k - 1], steps[k - 1])
                      && trace[k] == Apply(capacity, trace[k - 1], steps[k - 1])
    ensures k == 0 ==> Counted(trace[k], m, i, Times(steps[..k], Copy(m, i)), Times(steps[..k], FinishCopy(m, i)),
                               Times(steps[..k], Fire(m, i)))
  {
  }

  /** The life of an event in any run, by the number c of its copies made and d of its copies finished so far: once
      sent it is in the pipeline with 1 + c - d copies, and its hook runs exactly when the last of them is finished. The
      hook's signal is received at most once, and not before. */
  lemma EventHistory(capacity: nat, trace: seq<State>, steps: seq<Step>, k: nat, m: nat, i: nat)
    requires Run(capacity, trace, steps) && k < |trace| && Event(trace[k], m, i)
    ensures var e, c, d := trace[k].msgs[m].evs[i], Times(steps[..k], Copy(m, i)), Times(steps[..k], FinishCopy(m, i));
            && (e.Unsent? ==> c == d == 0)
            && (e.Live? <==> !e.Unsent? && d <= c)
            && (e.Live? ==> e.copies == 1 + c - d)
            && (e.Firing? || e.Signalled? <==> d == c + 1)
            && Times(steps[..k], Fire(m, i)) == if e.Signalled? then 1 else 0
  {
    CountedAlways(capacity, trace, steps, k, m, i);
  }

  // ---- What the acker promises ----

  /** In every run, a tag is acknowledged at most once, and it has been acknowledged exactly when none of its
      signals is outstanding: all its events are done, or it never had any and the consumer said so. Until then it
      is outstanding in as many signals as it has events left, or in one. */
  lemma AckIff(capacity: nat, trace: seq<State>, steps: seq<Step>, k: nat, m: nat)
    requires Run(capacity, trace, steps) && k < |trace| && m < |trace[k].msgs|
    ensures var s := trace[k];
            && multiset(s.acker.acked)[m] <= 1
            && (m in s.acker.acked <==> AllSignalled(s.msgs[m].evs) && !s.msgs[m].self)
            && (m in s.acker.acked <==> m !in s.acker.acks)
            && (m in s.acker.acks ==> Outstanding(s.msgs[m]) == Expected(s.acker.acks[m]))
  {
    SafeAlways(capacity, trace, steps, k);
    assert MsgOk(trace[k], m);
    OpenIsZero(trace[k].msgs[m].evs);
  }

  /** A tag is acknowledged at most once, and exactly when every event of its delivery was signalled; of each of these
      the original and every copy made of it were finished. A delivery without events is acknowledged by the consumer's
      own signal. */
  lemma AckSafety(capacity: nat, trace: seq<State>, steps: seq<Step>, k: nat, m: nat)
    requires Run(capacity, trace, steps) && k < |trace| && m < |trace[k].msgs|
    ensures var s := trace[k];
            && multiset(s.acker.acked)[m] <= 1
            && (m in s.acker.acked <==>
                  && !s.msgs[m].self
                  && forall i: nat :: i < |s.msgs[m].evs| ==> Times(steps[..k], Fire(m, i)) == 1)
            && (m in s.acker.acked ==>
                  forall i: nat :: i < |s.msgs[m].evs| ==>
                    Times(steps[..k], FinishCopy(m, i)) == Times(steps[..k], Copy(m, i)) + 1)
            && (m in s.acker.acked <==> m !in s.acker.acks)
            && (m in s.acker.acks ==> Outstanding(s.msgs[m]) == Expected(s.acker.acks[m]))
  {
    AckIff(capacity, trace, steps, k, m);
    var evs := trace[k].msgs[m].evs;
    forall i: nat | i < |evs|
      ensures Times(steps[..k], Fire(m, i)) == 1 <==> evs[i].Signalled?
      ensures evs[i].Signalled? ==> Times(steps[..k], FinishCopy(m, i)) == Times(steps[..k], Copy(m, i)) + 1
    {
      EventHistory(capacity, trace, steps, k, m, i);
    }
  }

  /** The tokens held are the tracked messages and the one on its way to the acker; and the acker takes a token
      back only while one is held. */
  lemma TokensAccounted(capacity: nat, trace: seq<State>, steps: seq<Step>, k: nat)
    requires Run(capacity, trace, steps) && k < |trace|
    ensures var s := trace[k]; s.acker.held == |s.acker.acks| + (if InTransit(s.consumer) then 1 else 0) <= capacity
    ensures var s := trace[k];
            k < |steps| && (steps[k].Fire? || steps[k].Self?) ==> s.acker.held > 0
  {
    SafeAlways(capacity, trace, steps, k);
    var s := trace[k];
    if k < |steps| && (steps[k].Fire? || steps[k].Self?) {
      var m := if steps[k].Fire? then steps[k].m else Last(s);
      assert MsgOk(s, m);
      OpenIsZero(s.msgs[m].evs);
      Tracks(s.acker.acks, m, 0);
    }
  }

  /** When the acker has stopped, the consumer has left its loop, every fetched message has been acknowledged, and
      no signal is outstanding. */
  lemma CleanStop(capacity: nat, trace: seq<State>, steps: seq<Step>, k: nat)
    requires Run(capacity, trace, steps) && k < |trace| && trace[k].acker.done
    ensures var s := trace[k];
            && (s.consumer.AwaitDone? || s.consumer.Left?) && s.acker.acks == map[] && s.acker.held == 0
            && forall m :: 0 <= m < |s.msgs| ==>
                 AllSignalled(s.msgs[m].evs) && !s.msgs[m].self && multiset(s.acker.acked)[m] == 1
  {
    SafeAlways(capacity, trace, steps, k);
    var s := trace[k];
    forall m: nat | m < |s.msgs|
      ensures AllSignalled(s.msgs[m].evs) && !s.msgs[m].self && multiset(s.acker.acked)[m] == 1
    {
      assert MsgOk(s, m);
      OpenIsZero(s.msgs[m].evs);
    }
  }

  /** Once the consumer waits for the acker: either the acker has stopped, or some event of some message still has
      live copies or a signal to give. The acker needs no further message to stop. */
  lemma StopsWhenDone(capacity: nat, trace: seq<State>, steps: seq<Step>, k: nat) returns (m: nat, i: nat)
    requires Run(capacity, trace, steps) && k < |trace| && trace[k].consumer.AwaitDone? && !trace[k].acker.done
    ensures Event(trace[k], m, i) && (trace[k].msgs[m].evs[i].Live? || trace[k].msgs[m].evs[i].Firing?)
  {
    SafeAlways(capacity, trace, steps, k);
    var s := trace[k];
    m :| m in s.acker.acks;
    assert MsgOk(s, m);
    OpenIsZero(s.msgs[m].evs);
    i :| i < |s.msgs[m].evs| && !s.msgs[m].evs[i].Signalled?;
  }
}
