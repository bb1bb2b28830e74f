/** All runs of one Kafka topic (plugins/inputs/kafka/reader.go): one reader goroutine per partition, the commit
    controller, and a pipeline that copies and finishes the emitted events at any time. The channels between
    them are unbuffered, so a send and its receive are one step; the semaphore is a buffered channel. */
module KafkaProtocol {
  import opened Delivery
  import opened KafkaController

  /** Where a reader is in its loop: before a fetch, before and after taking a token, sending the next event,
      before sending on exitCh, waiting on doneCh, and closed. */
  datatype Reader = Fetching | Fetched | Holding | Emitting(next: nat) | Exiting | Waiting | Closed

  datatype Message = Message(offset: int, evs: seq<Ev>)

  /** A partition with its history: every message fetched in this generation, how many of them were handed to
      the controller, how many left its queue, and every commit call. */
  datatype Partition = Partition(hist: seq<Message>, handed: nat, deleted: nat, commits: seq<Commit>, reader: Reader)

  /** Selecting, or in the middle of a commit phase with the queues of `todo` still to be visited. */
  datatype Phase = Selecting | Committing(todo: set<nat>)

  datatype Topic = Topic(parts: seq<Partition>, queues: Queues, tokens: int, capacity: nat, readers: int,
                         exitIfEmpty: bool, done: bool, phase: Phase, dropOnParserError: bool)

  datatype Parsed = Events(count: nat) | ParserFailed

  datatype Step =
    | Fetch(p: nat, offset: int, parsed: Parsed)
    | Acquire(p: nat)
    | HandOff(p: nat)
    | Emit(p: nat)
    | NextFetch(p: nat)
    | BreakLoop(p: nat)
    | SendExit(p: nat)
    | Leave(p: nat)
    | Copy(p: nat, m: nat, i: nat)
    | FinishCopy(p: nat, m: nat, i: nat)
    | Fire(p: nat, m: nat, i: nat)
    | BeginTick
    | CommitOne(p: nat, accepted: bool)
    | EndTick

  /** How many tracked events a fetched message yields: none when the parser failed and errors are dropped,
      one event with the raw message when they are consumed. */
  function EventCount(parsed: Parsed, dropOnParserError: bool): nat {
    match parsed
    case Events(count) => count
    case ParserFailed => if dropOnParserError then 0 else 1
  }

  predicate HasEvent(s: Topic, p: nat, m: nat, i: nat) {
    p < |s.parts| && m < |s.parts[p].hist| && i < |s.parts[p].hist[m].evs|
  }

  function Event(s: Topic, p: nat, m: nat, i: nat): Ev
    requires HasEvent(s, p, m, i)
  {
    s.parts[p].hist[m].evs[i]
  }

  predicate Listening(s: Topic) {
    !s.done && s.phase.Selecting?
  }

  predicate ReaderAt(s: Topic, p: nat, r: Reader) {
    p < |s.parts| && s.parts[p].reader == r
  }

  function Last(part: Partition): Message
    requires part.hist != []
  {
    part.hist[|part.hist| - 1]
  }

  predicate Enabled(s: Topic, st: Step) {
    match st
    case Fetch(p, offset, parsed) => ReaderAt(s, p, Fetching)
    case Acquire(p) => ReaderAt(s, p, Fetched) && s.tokens < s.capacity
    case HandOff(p) => ReaderAt(s, p, Holding) && s.parts[p].hist != [] && Listening(s)
    case Emit(p) =>
      && p < |s.parts| && s.parts[p].reader.Emitting? && s.parts[p].hist != []
      && s.parts[p].reader.next < |Last(s.parts[p]).evs|
    case NextFetch(p) =>
      && p < |s.parts| && s.parts[p].reader.Emitting? && s.parts[p].hist != []
      && s.parts[p].reader.next == |Last(s.parts[p]).evs|
    case BreakLoop(p) => ReaderAt(s, p, Fetching)
    case SendExit(p) => ReaderAt(s, p, Exiting) && Listening(s)
    case Leave(p) => ReaderAt(s, p, Waiting) && s.done
    case Copy(p, m, i) => HasEvent(s, p, m, i) && Event(s, p, m, i).Live?
    case FinishCopy(p, m, i) => HasEvent(s, p, m, i) && Event(s, p, m, i).Live?
    case Fire(p, m, i) => HasEvent(s, p, m, i) && Event(s, p, m, i).Firing? && Listening(s)
    case BeginTick => Listening(s)
    case CommitOne(p, accepted) => s.phase.Committing? && p in s.phase.todo && p < |s.parts|
    case EndTick => s.phase.Committing? && s.phase.todo == {}
  }

  function SetReader(s: Topic, p: nat, r: Reader): Topic
    requires p < |s.parts|
  {
    s.(parts := s.parts[p := s.parts[p].(reader := r)])
  }

  function SetEvent(part: Partition, m: nat, i: nat, e: Ev): Partition
    requires m < |part.hist| && i < |part.hist[m].evs|
  {
    part.(hist := part.hist[m := part.hist[m].(evs := part.hist[m].evs[i := e])])
  }

  function Put(s: Topic, p: nat, m: nat, i: nat, e: Ev): Topic
    requires HasEvent(s, p, m, i)
  {
    s.(parts := s.parts[p := SetEvent(s.parts[p], m, i, e)])
  }

  function Incoming(part: Partition): Tracked
    requires part.hist != []
  {
    Tracked(Last(part).offset, |Last(part).evs|, |Last(part).evs| == 0)
  }

  function Fetch'(part: Partition, offset: int, n: nat): Partition {
    part.(hist := part.hist + [Message(offset, Fresh(n))], reader := Fetched)
  }

  function Commit'(part: Partition, q: Queue, accepted: bool): Partition {
    part.(deleted := part.deleted + Prefix(q), commits := part.commits + Committed(q, accepted))
  }

  function Apply(s: Topic, st: Step): Topic
    requires Enabled(s, st)
  {
    match st
    case Fetch(p, offset, parsed) =>
      s.(parts := s.parts[p := Fetch'(s.parts[p], offset, EventCount(parsed, s.dropOnParserError))])
    case Acquire(p) => SetReader(s, p, Holding).(tokens := s.tokens + 1)
    case HandOff(p) =>
      var m := Incoming(s.parts[p]);
      var duplicate := HasOffset(At(s.queues, p), m.offset);
      s.(parts := s.parts[p := s.parts[p].(handed := s.parts[p].handed + 1, reader := Emitting(0))],
         queues := Stored(s.queues, p, m),
         tokens := if duplicate then s.tokens - 1 else s.tokens)
    case Emit(p) =>
      var part := s.parts[p];
      SetReader(Put(s, p, |part.hist| - 1, part.reader.next, Live(1)), p, Emitting(part.reader.next + 1))
    case NextFetch(p) => SetReader(s, p, Fetching)
    case BreakLoop(p) => SetReader(s, p, Exiting)
    case SendExit(p) =>
      var last := s.readers - 1 <= 0;
      SetReader(s, p, Waiting).(readers := s.readers - 1, exitIfEmpty := s.exitIfEmpty || last,
                                done := last && s.tokens == 0)
    case Leave(p) => SetReader(s, p, Closed)
    case Copy(p, m, i) => Put(s, p, m, i, Live(Event(s, p, m, i).copies + 1))
    case FinishCopy(p, m, i) => Put(s, p, m, i, Finish(Event(s, p, m, i)))
    case Fire(p, m, i) =>
      Put(s, p, m, i, Signalled).(
        queues := s.queues[p := Signal(At(s.queues, p), s.parts[p].hist[m].offset)])
    case BeginTick => s.(phase := Committing(s.queues.Keys))
    case CommitOne(p, accepted) =>
      var q := At(s.queues, p);
      s.(parts := s.parts[p := Commit'(s.parts[p], q, accepted)],
         queues := Trimmed(s.queues, p),
         tokens := s.tokens - Prefix(q),
         phase := Committing(s.phase.todo - {p}))
    case EndTick => s.(phase := Selecting, done := s.exitIfEmpty && s.tokens == 0)
  }

  /** The assumption on the broker: offsets of one partition arrive in increasing order. */
  predicate InOrder(s: Topic, st: Step) {
    st.Fetch? && st.p < |s.parts| && s.parts[st.p].hist != [] ==> Last(s.parts[st.p]).offset < st.offset
  }

  predicate Initial(s: Topic) {
    && (forall p :: 0 <= p < |s.parts| ==> s.parts[p] == Partition([], 0, 0, [], Fetching))
    && s.queues == map[] && s.tokens == 0 && s.capacity >= 1 && s.readers == |s.parts|
    && !s.exitIfEmpty && !s.done && s.phase == Selecting
  }

  ghost predicate Run(trace: seq<Topic>, steps: seq<Step>) {
    && |trace| == |steps| + 1 && Initial(trace[0])
    && forall k :: 0 <= k < |steps| ==> Enabled(trace[k], steps[k]) && trace[k + 1] == Apply(trace[k], steps[k])
  }

  ghost predicate OrderedRun(trace: seq<Topic>, steps: seq<Step>) {
    Run(trace, steps) && forall k :: 0 <= k < |steps| ==> InOrder(trace[k], steps[k])
  }

  // ---- Accounting: holds in every run, whatever the offsets are ----

  predicate IsHolding(part: Partition) { part.reader.Holding? }

  predicate IsActive(part: Partition) { !part.reader.Waiting? && !part.reader.Closed? }

  function Count(parts: seq<Partition>, f: Partition -> bool): nat {
    if parts == [] then 0
    else Count(parts[..|parts| - 1], f) + if f(parts[|parts| - 1]) then 1 else 0
  }

  lemma {:induction false} CountOfUpdate(parts: seq<Partition>, p: nat, part: Partition, f: Partition -> bool)
    requires p < |parts|
    ensures Count(parts[p := part], f)
         == Count(parts, f) - (if f(parts[p]) then 1 else 0) + (if f(part) then 1 else 0)
    ensures f(parts[p]) ==> Count(parts, f) >= 1
  {
    var n := |parts| - 1;
    if p < n {
      CountOfUpdate(parts[..n], p, part, f);
      assert parts[p := part][..n] == parts[..n][p := part];
    } else {
      assert parts[p := part][..n] == parts[..n];
    }
  }

  lemma {:induction false} CountZero(parts: seq<Partition>, f: Partition -> bool)
    requires Count(parts, f) == 0
    ensures forall p :: 0 <= p < |parts| ==> !f(parts[p])
  {
    if parts != [] {
      CountZero(parts[..|parts| - 1], f);
      assert forall p :: 0 <= p < |parts| - 1 ==> parts[p] == parts[..|parts| - 1][p];
    }
  }

  /** The reader's position in its loop, against what it has handed over. */
  ghost predicate HandOver(part: Partition) {
    && part.handed <= |part.hist|
    && (forall m :: part.handed <= m < |part.hist| ==> AllUnsent(part.hist[m].evs))
    && (part.reader.Fetched? || part.reader.Holding? ==> part.handed + 1 == |part.hist|)
    && (!part.reader.Fetched? && !part.reader.Holding? ==> part.handed == |part.hist|)
    && (part.reader.Emitting? ==> part.handed > 0)
  }

  /** Tokens are held exactly for the queued messages and the messages on their way to the controller; the
      controller counts the readers still in their loop, and finishes only when none is left and no token
      is held. A partition that has handed over a message has a queue. */
  ghost predicate Totals(s: Topic) {
    && s.tokens == TotalLen(s.queues, |s.parts|) + Count(s.parts, IsHolding) <= s.capacity
    && s.readers == Count(s.parts, IsActive)
    && s.exitIfEmpty == (s.readers <= 0 && |s.parts| > 0)
    && (s.done ==> s.exitIfEmpty && s.tokens == 0)
  }

  ghost predicate Tracking(s: Topic) {
    && (forall p <- s.queues.Keys :: p < |s.parts|)
    && (s.phase.Committing? ==> !s.done && s.phase.todo <= s.queues.Keys)
    && (forall p :: 0 <= p < |s.parts| ==>
          HandOver(s.parts[p]) && (s.parts[p].handed > 0 ==> p in s.queues))
  }

  ghost predicate Accounting(s: Topic) {
    Totals(s) && Tracking(s)
  }

  lemma {:induction false} CountAll(parts: seq<Partition>, f: Partition -> bool, value: bool)
    requires forall p :: 0 <= p < |parts| ==> f(parts[p]) == value
    ensures Count(parts, f) == if value then |parts| else 0
  {
    if parts != [] {
      CountAll(parts[..|parts| - 1], f, value);
    }
  }

  lemma InitialAccounting(s: Topic)
    requires Initial(s)
    ensures Accounting(s)
  {
    TotalLenZero(s.queues, |s.parts|);
    CountAll(s.parts, IsHolding, false);
    CountAll(s.parts, IsActive, true);
  }

  lemma CountsAfter(s: Topic, st: Step)
    requires Enabled(s, st) && !st.BeginTick? && !st.EndTick?
    ensures st.p < |s.parts| == |Apply(s, st).parts|
    ensures var part' := Apply(s, st).parts[st.p];
            && Apply(s, st).parts == s.parts[st.p := part']
            && Count(Apply(s, st).parts, IsHolding)
               == Count(s.parts, IsHolding) - (if IsHolding(s.parts[st.p]) then 1 else 0)
                 + (if IsHolding(part') then 1 else 0)
            && Count(Apply(s, st).parts, IsActive)
               == Count(s.parts, IsActive) - (if IsActive(s.parts[st.p]) then 1 else 0)
                 + (if IsActive(part') then 1 else 0)
            && (IsActive(s.parts[st.p]) ==> Count(s.parts, IsActive) >= 1)
  {
    var part' := Apply(s, st).parts[st.p];
    CountOfUpdate(s.parts, st.p, part', IsHolding);
    CountOfUpdate(s.parts, st.p, part', IsActive);
  }

  lemma LengthsAfter(s: Topic, st: Step)
    requires Enabled(s, st) && Accounting(s)
    ensures var n := |s.parts|;
            TotalLen(Apply(s, st).queues, n) == TotalLen(s.queues, n)
              + (match st
                 case HandOff(p) => if HasOffset(At(s.queues, p), Incoming(s.parts[p]).offset) then 0 else 1
                 case CommitOne(p, _) => 0 - Prefix(At(s.queues, p)) as int
                 case _ => 0)
  {
    var n := |s.parts|;
    match st {
      case HandOff(p) =>
        var m := Incoming(s.parts[p]);
        TotalLenOfUpdate(s.queues, n, p, Stored(s.queues, p, m)[p]);
      case CommitOne(p, _) =>
        TotalLenOfUpdate(s.queues, n, p, Trimmed(s.queues, p)[p]);
      case Fire(p, m, i) =>
        TotalLenOfUpdate(s.queues, n, p, Signal(At(s.queues, p), s.parts[p].hist[m].offset));
      case _ =>
    }
  }

  lemma HandOverOfSetEvent(part: Partition, m: nat, i: nat, e: Ev)
    requires HandOver(part) && m < part.handed && i < |part.hist[m].evs|
    ensures HandOver(SetEvent(part, m, i, e))
  {
  }

  lemma HandOverStep(s: Topic, st: Step, p: nat)
    requires p < |s.parts| && HandOver(s.parts[p]) && Enabled(s, st)
    ensures HandOver(Apply(s, st).parts[p])
  {
    if st.BeginTick? || st.EndTick? || st.p != p {
      Untouched(s, st, p);
    } else if st.Emit? || st.Copy? || st.FinishCopy? || st.Fire? {
      HandOverEvent(s, st);
    } else {
      HandOverOther(s, st);
    }
  }

  lemma Untouched(s: Topic, st: Step, p: nat)
    requires Enabled(s, st) && p < |s.parts| && (st.BeginTick? || st.EndTick? || st.p != p)
    ensures Apply(s, st).parts[p] == s.parts[p] && At(Apply(s, st).queues, p) == At(s.queues, p)
  {
  }

  lemma HandOverEvent(s: Topic, st: Step)
    requires Enabled(s, st) && (st.Emit? || st.Copy? || st.FinishCopy? || st.Fire?) && HandOver(s.parts[st.p])
    ensures HandOver(Apply(s, st).parts[st.p])
  {
    var part := s.parts[st.p];
    match st {
      case Emit(_) =>
        HandOverOfSetEvent(part, |part.hist| - 1, part.reader.next, Live(1));
      case Copy(_, m, i) =>
        HandOverOfSetEvent(part, m, i, Live(part.hist[m].evs[i].copies + 1));
      case FinishCopy(_, m, i) =>
        HandOverOfSetEvent(part, m, i, Finish(part.hist[m].evs[i]));
      case Fire(_, m, i) =>
        HandOverOfSetEvent(part, m, i, Signalled);
    }
  }

  lemma HandOverOther(s: Topic, st: Step)
    requires Enabled(s, st) && !st.BeginTick? && !st.EndTick? && HandOver(s.parts[st.p])
    requires !st.Emit? && !st.Copy? && !st.FinishCopy? && !st.Fire?
    ensures HandOver(Apply(s, st).parts[st.p])
  {
    var part, part' := s.parts[st.p], Apply(s, st).parts[st.p];
    if st.Fetch? {
      assert part'.hist[|part.hist|].evs == Fresh(EventCount(st.parsed, s.dropOnParserError));
    }
  }

  lemma QueueStep(s: Topic, st: Step, p: nat)
    requires p < |s.parts| && (s.parts[p].handed > 0 ==> p in s.queues) && Enabled(s, st)
    ensures Apply(s, st).parts[p].handed > 0 ==> p in Apply(s, st).queues
  {
    if st.HandOff? && st.p == p {
      assert p in Apply(s, st).queues;
    } else {
      assert Apply(s, st).parts[p].handed == s.parts[p].handed;
      assert s.queues.Keys <= Apply(s, st).queues.Keys;
    }
  }

  lemma TotalsStep(s: Topic, st: Step)
    requires Totals(s) && Tracking(s) && Enabled(s, st)
    ensures Totals(Apply(s, st))
  {
    hide TotalLen, Count, HandOver;
    LengthsAfter(s, st);
    if !st.BeginTick? && !st.EndTick? {
      CountsAfter(s, st);
    }
  }

  lemma TrackingStep(s: Topic, st: Step)
    requires Tracking(s) && Enabled(s, st)
    ensures Tracking(Apply(s, st))
  {
    var s' := Apply(s, st);
    assert |s'.parts| == |s.parts|;
    forall p | 0 <= p < |s'.parts|
      ensures HandOver(s'.parts[p]) && (s'.parts[p].handed > 0 ==> p in s'.queues)
    {
      HandOverStep(s, st, p);
      QueueStep(s, st, p);
    }
  }

  lemma AccountingStep(s: Topic, st: Step)
    requires Accounting(s) && Enabled(s, st)
    ensures Accounting(Apply(s, st))
  {
    TotalsStep(s, st);
    TrackingStep(s, st);
  }

  /** In every state of every run, with any offsets and any interleaving, at most `capacity` tokens are held:
      one per queued message and one per message between its token and its hand-off. The controller's own
      receive from the semaphore never blocks, and an event's signal always finds the queue of its partition. */
  lemma {:induction false} AccountingAlways(trace: seq<Topic>, steps: seq<Step>, k: nat)
    requires Run(trace, steps) && k < |trace|
    ensures Accounting(trace[k])
    ensures 0 <= trace[k].tokens <= trace[k].capacity
    ensures forall p, accepted :: Enabled(trace[k], CommitOne(p, accepted)) ==>
              Prefix(At(trace[k].queues, p)) <= trace[k].tokens
    ensures forall p :: Enabled(trace[k], HandOff(p)) ==> trace[k].tokens >= 1
    ensures forall p, m, i :: Enabled(trace[k], Fire(p, m, i)) ==> p in trace[k].queues
  {
    if k == 0 {
      InitialAccounting(trace[0]);
    } else {
      AccountingAlways(trace, steps, k - 1);
      AccountingStep(trace[k - 1], steps[k - 1]);
    }
    ReceivesNeverBlock(trace[k]);
  }

  lemma ReceivesNeverBlock(s: Topic)
    requires Accounting(s)
    ensures forall p, accepted :: Enabled(s, CommitOne(p, accepted)) ==> Prefix(At(s.queues, p)) <= s.tokens
    ensures forall p :: Enabled(s, HandOff(p)) ==> s.tokens >= 1
    ensures forall p, m, i :: Enabled(s, Fire(p, m, i)) ==> p in s.queues
  {
    forall p: nat, accepted | Enabled(s, CommitOne(p, accepted)) ensures Prefix(At(s.queues, p)) <= s.tokens {
      TotalLenCovers(s.queues, |s.parts|, p);
    }
    forall p: nat | Enabled(s, HandOff(p)) ensures s.tokens >= 1 {
      CountOfUpdate(s.parts, p, s.parts[p], IsHolding);
    }
  }

  // ---- Safety: holds in every run whose offsets arrive in order ----

  ghost predicate Increasing(hist: seq<Message>) {
    forall i, j :: 0 <= i < j < |hist| ==> hist[i].offset < hist[j].offset
  }

  /** Every message but the one being fetched or sent has all its events on their way. */
  ghost predicate Emission(part: Partition) {
    && (forall m :: 0 <= m < |part.hist| - 1 ==> NoneUnsent(part.hist[m].evs))
    && (part.hist != [] ==>
          var evs := Last(part).evs;
          match part.reader
          case Emitting(next) =>
            next <= |evs| && forall j :: 0 <= j < |evs| ==> (evs[j].Unsent? <==> next <= j)
          case Fetched => true
          case Holding => true
          case _ => NoneUnsent(evs))
  }

  /** The queue holds exactly the messages handed over and not removed, in order, each with the number of its
      events whose signal is missing; the removed ones have all their signals. */
  ghost predicate Mirrors(q: Queue, part: Partition) {
    && part.deleted <= part.handed <= |part.hist|
    && |q| == part.handed - part.deleted
    && (forall i :: 0 <= i < |q| ==>
          q[i] == var m := part.hist[part.deleted + i]; Tracked(m.offset, Open(m.evs), Open(m.evs) == 0))
    && (forall m :: 0 <= m < part.deleted ==> AllSignalled(part.hist[m].evs))
  }

  /** Committed positions strictly increase, and the last one is the end of the removed messages. */
  ghost predicate CommitLog(part: Partition) {
    && part.deleted <= |part.hist|
    && (part.commits == [] <==> part.deleted == 0)
    && (part.deleted > 0 ==> part.commits[|part.commits| - 1].position == part.hist[part.deleted - 1].offset + 1)
    && (forall i, j :: 0 <= i < j < |part.commits| ==> part.commits[i].position < part.commits[j].position)
  }

  ghost predicate Safe(part: Partition, q: Queue) {
    HandOver(part) && Increasing(part.hist) && Emission(part) && Mirrors(q, part) && CommitLog(part)
  }

  lemma SignalOne(q: Queue, k: nat)
    requires k < |q| && UniqueOffsets(q)
    ensures Signal(q, q[k].offset) == q[k := Marked(q[k])]
  {
  }

  lemma SafeUnique(part: Partition, q: Queue)
    requires Increasing(part.hist) && Mirrors(q, part)
    ensures UniqueOffsets(q)
  {
    forall i, j | 0 <= i < j < |q| ensures q[i].offset != q[j].offset {
      assert part.hist[part.deleted + i].offset < part.hist[part.deleted + j].offset;
    }
  }

  /** An event that is neither unsent nor signalled belongs to a queued message. */
  lemma InQueue(part: Partition, q: Queue, m: nat, i: nat)
    requires Safe(part, q) && m < |part.hist| && i < |part.hist[m].evs|
    requires part.hist[m].evs[i].Live? || part.hist[m].evs[i].Firing?
    ensures part.deleted <= m < part.handed
  {
  }

  /** Changing one event of a queued message while its signal stays missing leaves the queue as it is. */
  lemma MirrorsUnsignalled(part: Partition, q: Queue, m: nat, i: nat, e: Ev)
    requires Mirrors(q, part) && part.deleted <= m < part.handed && i < |part.hist[m].evs|
    requires !part.hist[m].evs[i].Signalled? && !e.Signalled?
    ensures Mirrors(q, SetEvent(part, m, i, e))
  {
    OpenOfUpdate(part.hist[m].evs, i, e);
  }

  lemma SafeTouch(part: Partition, q: Queue, m: nat, i: nat, e: Ev)
    requires Safe(part, q) && m < |part.hist| && i < |part.hist[m].evs|
    requires part.hist[m].evs[i].Live? && (e.Live? || e.Firing?)
    ensures Safe(SetEvent(part, m, i, e), q)
  {
    InQueue(part, q, m, i);
    HandOverOfSetEvent(part, m, i, e);
    MirrorsUnsignalled(part, q, m, i, e);
  }

  lemma SafeEmit(part: Partition, q: Queue)
    requires Safe(part, q) && part.reader.Emitting? && part.hist != [] && part.reader.next < |Last(part).evs|
    ensures var part' := SetEvent(part, |part.hist| - 1, part.reader.next, Live(1));
            Safe(part'.(reader := Emitting(part.reader.next + 1)), q)
  {
    var m, i := |part.hist| - 1, part.reader.next;
    assert part.hist[m].evs[i].Unsent?;
    assert !AllSignalled(part.hist[m].evs);
    HandOverOfSetEvent(part, m, i, Live(1));
    MirrorsUnsignalled(part, q, m, i, Live(1));
  }

  lemma SafeSignalled(part: Partition, q: Queue, m: nat, i: nat)
    requires Safe(part, q) && m < |part.hist| && i < |part.hist[m].evs| && part.hist[m].evs[i].Firing?
    ensures Safe(SetEvent(part, m, i, Signalled), Signal(q, part.hist[m].offset))
  {
    InQueue(part, q, m, i);
    SafeUnique(part, q);
    HandOverOfSetEvent(part, m, i, Signalled);
    MirrorsSignalled(part, q, m, i);
    hide Mirrors, HandOver;
  }

  /** The signal of an event of a queued message. */
  lemma MirrorsSignalled(part: Partition, q: Queue, m: nat, i: nat)
    requires Mirrors(q, part) && UniqueOffsets(q) && part.deleted <= m < part.handed && i < |part.hist[m].evs|
    requires part.hist[m].evs[i].Firing?
    ensures Mirrors(Signal(q, part.hist[m].offset), SetEvent(part, m, i, Signalled))
  {
    OpenOfUpdate(part.hist[m].evs, i, Signalled);
    hide Open, UniqueOffsets;
    SignalOne(q, m - part.deleted);
  }

  lemma MirrorsCommit(part: Partition, q: Queue, accepted: bool)
    requires Mirrors(q, part)
    ensures Mirrors(q[Prefix(q)..], Commit'(part, q, accepted))
  {
    var n, d, part' := Prefix(q), part.deleted, Commit'(part, q, accepted);
    forall m | 0 <= m < d + n ensures AllSignalled(part'.hist[m].evs) {
      if d <= m {
        assert q[m - d].delivered;
        OpenIsZero(part.hist[m].evs);
      }
    }
    forall i | 0 <= i < |q[n..]|
      ensures q[n..][i] == var m := part'.hist[part'.deleted + i]; Tracked(m.offset, Open(m.evs), Open(m.evs) == 0)
    {
      assert q[n..][i] == q[n + i];
      assert part'.deleted + i == d + (n + i);
    }
  }

  lemma LogCommit(part: Partition, q: Queue, accepted: bool)
    requires Mirrors(q, part) && CommitLog(part) && Increasing(part.hist)
    ensures CommitLog(Commit'(part, q, accepted))
  {
    var n, d := Prefix(q), part.deleted;
    if n > 0 {
      assert q[n - 1].offset == part.hist[d + n - 1].offset;
      if d > 0 {
        assert part.hist[d - 1].offset < part.hist[d + n - 1].offset;
        assert part.commits[|part.commits| - 1].position < q[n - 1].offset + 1;
      }
    } else {
      assert part.commits + Committed(q, accepted) == part.commits;
    }
  }

  lemma SafeCommit(part: Partition, q: Queue, accepted: bool)
    requires Safe(part, q)
    ensures Safe(Commit'(part, q, accepted), q[Prefix(q)..])
  {
    MirrorsCommit(part, q, accepted);
    LogCommit(part, q, accepted);
    assert Commit'(part, q, accepted).hist == part.hist;
  }

  lemma SafeFetch(part: Partition, q: Queue, offset: int, n: nat)
    requires Safe(part, q) && part.reader.Fetching? && (part.hist != [] ==> Last(part).offset < offset)
    ensures Safe(Fetch'(part, offset, n), q)
  {
    var part' := Fetch'(part, offset, n);
    assert part'.hist[|part.hist|].evs == Fresh(n);
    assert forall m :: 0 <= m < |part.hist| ==> NoneUnsent(part.hist[m].evs);
  }

  lemma SafeHandOff(part: Partition, q: Queue)
    requires Safe(part, q) && part.reader.Holding?
    ensures !HasOffset(q, Last(part).offset)
    ensures Safe(part.(handed := part.handed + 1, reader := Emitting(0)), q + [Incoming(part)])
  {
    OpenOfUnsent(Last(part).evs);
    forall i | 0 <= i < |q| ensures q[i].offset != Last(part).offset {
      assert part.hist[part.deleted + i].offset < Last(part).offset;
    }
  }

  /** The steps that only move a reader on. */
  lemma SafeMove(part: Partition, q: Queue, r: Reader)
    requires Safe(part, q)
    requires match part.reader
             case Fetched => r.Holding?
             case Emitting(next) => part.hist != [] && next == |Last(part).evs| && r.Fetching?
             case Holding => false
             case _ => r.Fetching? || r.Exiting? || r.Waiting? || r.Closed?
    ensures Safe(part.(reader := r), q)
  {
  }

  lemma SafeStep(s: Topic, st: Step, p: nat)
    requires Enabled(s, st) && InOrder(s, st) && p < |s.parts| && Safe(s.parts[p], At(s.queues, p))
    ensures Safe(Apply(s, st).parts[p], At(Apply(s, st).queues, p))
  {
    hide Safe;
    if st.BeginTick? || st.EndTick? || st.p != p {
      Untouched(s, st, p);
    } else if st.Copy? || st.FinishCopy? || st.Fire? {
      SafeEventStep(s, st);
    } else if MovesReader(st) {
      SafeMoveStep(s, st);
    } else {
      SafeMessageStep(s, st);
    }
  }

  lemma SafeEventStep(s: Topic, st: Step)
    requires Enabled(s, st) && (st.Copy? || st.FinishCopy? || st.Fire?) && Safe(s.parts[st.p], At(s.queues, st.p))
    ensures Safe(Apply(s, st).parts[st.p], At(Apply(s, st).queues, st.p))
  {
    hide Safe;
    var part, q := s.parts[st.p], At(s.queues, st.p);
    match st {
      case Copy(_, m, i) => SafeTouch(part, q, m, i, Live(part.hist[m].evs[i].copies + 1));
      case FinishCopy(_, m, i) => SafeTouch(part, q, m, i, Finish(part.hist[m].evs[i]));
      case Fire(_, m, i) => SafeSignalled(part, q, m, i);
    }
  }

  predicate MovesReader(st: Step) {
    st.Acquire? || st.NextFetch? || st.BreakLoop? || st.SendExit? || st.Leave?
  }

  lemma SafeMoveStep(s: Topic, st: Step)
    requires Enabled(s, st) && MovesReader(st) && Safe(s.parts[st.p], At(s.queues, st.p))
    ensures Safe(Apply(s, st).parts[st.p], At(Apply(s, st).queues, st.p))
  {
    hide Safe;
    var r := match st
             case Acquire(_) => Holding
             case NextFetch(_) => Fetching
             case BreakLoop(_) => Exiting
             case SendExit(_) => Waiting
             case _ => Closed;
    assert Apply(s, st).parts[st.p] == s.parts[st.p].(reader := r);
    SafeMove(s.parts[st.p], At(s.queues, st.p), r);
  }

  lemma SafeMessageStep(s: Topic, st: Step)
    requires Enabled(s, st) && InOrder(s, st) && (st.Fetch? || st.HandOff? || st.Emit? || st.CommitOne?)
    requires Safe(s.parts[st.p], At(s.queues, st.p))
    ensures Safe(Apply(s, st).parts[st.p], At(Apply(s, st).queues, st.p))
  {
    hide Safe;
    var part, q := s.parts[st.p], At(s.queues, st.p);
    match st {
      case Fetch(_, offset, parsed) => SafeFetch(part, q, offset, EventCount(parsed, s.dropOnParserError));
      case HandOff(_) => SafeHandOff(part, q);
      case Emit(_) => SafeEmit(part, q);
      case CommitOne(_, accepted) => SafeCommit(part, q, accepted);
    }
  }

  lemma InitialSafe(s: Topic, p: nat)
    requires Initial(s) && p < |s.parts|
    ensures Safe(s.parts[p], At(s.queues, p))
  {
    assert s.parts[p] == Partition([], 0, 0, [], Fetching);
  }

  lemma SameParts(s: Topic, st: Step)
    requires Enabled(s, st)
    ensures |Apply(s, st).parts| == |s.parts|
  {
  }

  lemma {:induction false} SafeAlways(trace: seq<Topic>, steps: seq<Step>, k: nat, p: nat)
    requires OrderedRun(trace, steps) && k < |trace| && p < |trace[k].parts|
    ensures Safe(trace[k].parts[p], At(trace[k].queues, p))
  {
    hide Safe, Apply, Enabled;
    if k == 0 {
      InitialSafe(trace[0], p);
    } else {
      SameParts(trace[k - 1], steps[k - 1]);
      SafeAlways(trace, steps, k - 1, p);
      SafeStep(trace[k - 1], steps[k - 1], p);
    }
  }

  /** The signals of all events of all messages of this partition below the committed position were received. */
  ghost predicate CommitsCover(part: Partition) {
    forall c, m :: 0 <= c < |part.commits| && 0 <= m < |part.hist| && part.hist[m].offset < part.commits[c].position ==>
      AllSignalled(part.hist[m].evs)
  }

  lemma SafeCovers(part: Partition, q: Queue)
    requires Safe(part, q)
    ensures CommitsCover(part)
  {
    assert part.commits != [] ==> forall m :: part.deleted <= m < |part.hist| ==>
      part.hist[part.deleted - 1].offset < part.hist[m].offset;
    forall c, m | 0 <= c < |part.commits| && 0 <= m < |part.hist| && part.hist[m].offset < part.commits[c].position
      ensures AllSignalled(part.hist[m].evs)
    {
      assert part.commits[c].position <= part.commits[|part.commits| - 1].position;
    }
  }

  /** The assumption is needed: a message that yields events breaks the promise at once exactly when its
      offset is below a position that was already committed. */
  lemma StaleFetch(s: Topic, st: Step)
    requires st.Fetch? && Enabled(s, st) && CommitsCover(s.parts[st.p])
    requires EventCount(st.parsed, s.dropOnParserError) > 0
    ensures CommitsCover(Apply(s, st).parts[st.p]) <==>
              forall c :: 0 <= c < |s.parts[st.p].commits| ==> s.parts[st.p].commits[c].position <= st.offset
  {
    var part, part' := s.parts[st.p], Apply(s, st).parts[st.p];
    var m := |part.hist|;
    assert part'.hist[m].offset == st.offset && part'.hist[m].evs[0].Unsent?;
    assert !AllSignalled(part'.hist[m].evs);
  }

  // ---- The shutdown handshake ----

  ghost predicate NothingInFlight(part: Partition) {
    forall m :: 0 <= m < |part.hist| ==> AllSignalled(part.hist[m].evs)
  }

  /** When doneCh is closed every reader has left its fetch loop, every queue is empty, no hook can send on commitCh any
      more, and the last commit of every partition is just behind the last message fetched. */
  lemma CleanExit(trace: seq<Topic>, steps: seq<Step>, k: nat, p: nat)
    requires OrderedRun(trace, steps) && k < |trace| && trace[k].done && p < |trace[k].parts|
    ensures trace[k].parts[p].reader.Waiting? || trace[k].parts[p].reader.Closed?
    ensures At(trace[k].queues, p) == []
    ensures NothingInFlight(trace[k].parts[p])
    ensures var part := trace[k].parts[p];
            part.hist != [] ==>
              part.commits != [] && part.commits[|part.commits| - 1].position == Last(part).offset + 1
  {
    var s := trace[k];
    AccountingAlways(trace, steps, k);
    TotalLenZero(s.queues, |s.parts|);
    CountZero(s.parts, IsActive);
    SafeAlways(trace, steps, k, p);
  }

  /** All readers are waiting for doneCh and every hook has fired. */
  ghost predicate Drained(s: Topic) {
    && s.parts != []
    && forall p :: 0 <= p < |s.parts| ==> s.parts[p].reader.Waiting? && NothingInFlight(s.parts[p])
  }

  /** In a drained topic only the commit phase can move. */
  lemma DrainedStep(s: Topic, st: Step)
    requires Drained(s) && Enabled(s, st) && !s.done
    ensures st.BeginTick? || st.CommitOne? || st.EndTick?
    ensures Drained(Apply(s, st))
  {
  }

  lemma DrainedQueue(part: Partition, q: Queue)
    requires Safe(part, q) && NothingInFlight(part)
    ensures Prefix(q) == |q|
  {
    forall i | 0 <= i < |q| ensures q[i].delivered {
      OpenIsZero(part.hist[part.deleted + i].evs);
    }
  }

  /** A commit phase that began when the topic was drained has emptied the queues it visited. */
  lemma {:induction false} DrainedPhase(trace: seq<Topic>, steps: seq<Step>, a: nat, b: nat)
    requires OrderedRun(trace, steps) && a < b < |trace| && Drained(trace[a]) && steps[a] == BeginTick
    requires forall j :: a < j < b ==> steps[j] != EndTick
    ensures Drained(trace[b]) && trace[b].phase.Committing? && !trace[b].done
    ensures forall p :: 0 <= p < |trace[b].parts| && p !in trace[b].phase.todo ==> At(trace[b].queues, p) == []
  {
    if b == a + 1 {
      DrainedStep(trace[a], BeginTick);
    } else {
      var s, st := trace[b - 1], steps[b - 1];
      DrainedPhase(trace, steps, a, b - 1);
      DrainedStep(s, st);
      SafeAlways(trace, steps, b - 1, st.p);
      DrainedVisit(s, st);
    }
  }

  /** The visit of one queue empties it. */
  lemma DrainedVisit(s: Topic, st: Step)
    requires Drained(s) && s.phase.Committing? && !s.done && Enabled(s, st) && st.CommitOne?
    requires Safe(s.parts[st.p], At(s.queues, st.p))
    requires forall p :: 0 <= p < |s.parts| && p !in s.phase.todo ==> At(s.queues, p) == []
    ensures var s' := Apply(s, st);
            && s'.phase.Committing? && !s'.done
            && forall p :: 0 <= p < |s'.parts| && p !in s'.phase.todo ==> At(s'.queues, p) == []
  {
    DrainedQueue(s.parts[st.p], At(s.queues, st.p));
    hide Safe, Drained;
  }

  /** Once the last reader has left and every hook has fired, the next commit phase closes doneCh. */
  lemma DrainedTickFinishes(trace: seq<Topic>, steps: seq<Step>, a: nat, b: nat)
    requires OrderedRun(trace, steps) && a < b < |steps| && Drained(trace[a])
    requires steps[a] == BeginTick && steps[b] == EndTick && forall j :: a < j < b ==> steps[j] != EndTick
    ensures trace[b + 1].done
  {
    var s := trace[b];
    DrainedPhase(trace, steps, a, b);
    AccountingAlways(trace, steps, b);
    TotalLenZero(s.queues, |s.parts|);
    CountAll(s.parts, IsHolding, false);
    CountAll(s.parts, IsActive, false);
  }

  /** ... and until then some step of the commit phase can be taken. */
  lemma DrainedProgress(trace: seq<Topic>, steps: seq<Step>, k: nat) returns (st: Step)
    requires OrderedRun(trace, steps) && k < |trace| && Drained(trace[k]) && !trace[k].done
    ensures Enabled(trace[k], st) && (st.BeginTick? || st.CommitOne? || st.EndTick?)
  {
    var s := trace[k];
    AccountingAlways(trace, steps, k);
    if s.phase.Selecting? {
      st := BeginTick;
    } else if s.phase.todo == {} {
      st := EndTick;
    } else {
      var p :| p in s.phase.todo;
      st := CommitOne(p, true);
    }
  }
}
