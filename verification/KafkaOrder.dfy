/** What the order in which the broker delivers offsets means for the commits of a Kafka partition
    (plugins/inputs/kafka/reader.go): over all runs, exactly which sequences of fetches are safe. */
module KafkaOrder {
  import opened Delivery
  import opened KafkaController
  import opened KafkaProtocol
  import opened KafkaHistory

  /** A fetched message: its offset, and the number of events made from it. */
  datatype Arrival = Arrival(offset: int, events: nat)

  function Arrivals(hist: seq<Message>): (a: seq<Arrival>)
    ensures |a| == |hist|
  {
    seq(|hist|, m requires 0 <= m < |hist| => Arrival(hist[m].offset, |hist[m].evs|))
  }

  /** A message that yields events comes with an offset above those of all messages before it. */
  ghost predicate Ahead(a: seq<Arrival>) {
    forall i, j :: 0 <= i < j < |a| && a[j].events > 0 ==> a[i].offset < a[j].offset
  }

  ghost predicate AheadHist(hist: seq<Message>) {
    forall i, j :: 0 <= i < j < |hist| && hist[j].evs != [] ==> hist[i].offset < hist[j].offset
  }

  // ---- Safe sequences ----

  ghost predicate Pending(part: Partition, m: nat) {
    m < part.handed <= |part.hist| && Open(part.hist[m].evs) > 0
  }

  function Entry(msg: Message): Tracked {
    Tracked(msg.offset, Open(msg.evs), false)
  }

  /** The queue has an entry for every message with a signal missing. */
  ghost predicate Listed(q: Queue, part: Partition) {
    forall m: nat :: Pending(part, m) ==> Entry(part.hist[m]) in q
  }

  /** An entry's offset is that of a message handed over; of a pending one, if it is not delivered. */
  ghost predicate Stems(e: Tracked, part: Partition, m: nat) {
    m < part.handed <= |part.hist| && part.hist[m].offset == e.offset && (!e.delivered ==> Pending(part, m))
  }

  ghost predicate AllStem(q: Queue, part: Partition) {
    forall e <- q :: exists m: nat :: Stems(e, part, m)
  }

  /** An undelivered entry lies above everything queued before it. */
  ghost predicate Rising(q: Queue) {
    forall i, j :: 0 <= i < j < |q| && !q[j].delivered ==> q[i].offset < q[j].offset
  }

  ghost predicate QueueOk(part: Partition, q: Queue) {
    UniqueOffsets(q) && Listed(q, part) && AllStem(q, part) && Rising(q)
  }

  /** Some message fetched lies at or above the end of what was committed. */
  ghost predicate Reached(hist: seq<Message>, position: int) {
    exists m: nat :: m < |hist| && position <= hist[m].offset + 1
  }

  ghost predicate CommitsOk(part: Partition) {
    CommitsCover(part) && forall c :: 0 <= c < |part.commits| ==> Reached(part.hist, part.commits[c].position)
  }

  ghost predicate Kept(part: Partition, q: Queue) {
    HandOver(part) && AheadHist(part.hist) && QueueOk(part, q) && CommitsOk(part)
  }

  /** The same messages, but for the state of their events. */
  ghost predicate SameOffsets(a: seq<Message>, b: seq<Message>) {
    && |a| <= |b|
    && forall m :: 0 <= m < |a| ==> a[m].offset == b[m].offset && |a[m].evs| == |b[m].evs|
  }

  lemma AheadSame(a: seq<Message>, b: seq<Message>)
    requires SameOffsets(a, b) && |a| == |b| && AheadHist(a)
    ensures AheadHist(b)
  {
    forall j | 0 <= j < |b| && b[j].evs != [] ensures a[j].evs != [] {
      assert |a[j].evs| == |b[j].evs|;
    }
  }

  /** Commits stay covered while signals only come in and no message is fetched. */
  lemma CommitsStay(part: Partition, part': Partition)
    requires CommitsOk(part) && part'.commits == part.commits && SameOffsets(part.hist, part'.hist)
    requires |part.hist| == |part'.hist|
    requires forall m :: 0 <= m < |part.hist| && AllSignalled(part.hist[m].evs) ==> AllSignalled(part'.hist[m].evs)
    ensures CommitsOk(part')
  {
    hide AllSignalled;
    forall c | 0 <= c < |part'.commits| ensures Reached(part'.hist, part'.commits[c].position) {
      assert Reached(part.hist, part.commits[c].position);
      var m: nat :| m < |part.hist| && part.commits[c].position <= part.hist[m].offset + 1;
      assert part'.hist[m].offset == part.hist[m].offset;
    }
  }

  /** The queue stays in order while no pending message changes. */
  lemma QueueStays(part: Partition, part': Partition, q: Queue)
    requires QueueOk(part, q) && SameOffsets(part.hist, part'.hist) && part.handed == part'.handed <= |part.hist|
    requires forall m: nat :: m < part.handed ==> Open(part'.hist[m].evs) == Open(part.hist[m].evs)
    ensures QueueOk(part', q)
  {
    hide Open, UniqueOffsets, Rising;
    forall m: nat | Pending(part', m) ensures Entry(part'.hist[m]) in q {
      assert Pending(part, m) && Entry(part'.hist[m]) == Entry(part.hist[m]);
    }
    forall e <- q ensures exists m: nat :: Stems(e, part', m) {
      var m: nat :| Stems(e, part, m);
      assert Stems(e, part', m);
    }
  }

  lemma KeptEvent(part: Partition, q: Queue, m: nat, i: nat, e: Ev)
    requires Kept(part, q) && m < part.handed && i < |part.hist[m].evs|
    requires !part.hist[m].evs[i].Signalled? && !e.Signalled?
    ensures Kept(SetEvent(part, m, i, e), q)
  {
    OpenOfUpdate(part.hist[m].evs, i, e);
    HandOverOfSetEvent(part, m, i, e);
    var part' := SetEvent(part, m, i, e);
    assert !AllSignalled(part.hist[m].evs);
    hide HandOver, Open, AllSignalled, QueueOk, CommitsOk;
    AheadSame(part.hist, part'.hist);
    CommitsStay(part, part');
    QueueStays(part, part', q);
  }

  /** Pending messages have different offsets. */
  lemma PendingDiffer(part: Partition, x: nat, y: nat)
    requires AheadHist(part.hist) && Pending(part, x) && Pending(part, y) && x != y
    ensures part.hist[x].offset != part.hist[y].offset
  {
    assert part.hist[x].evs != [] && part.hist[y].evs != [];
  }

  lemma KeptSignalled(part: Partition, q: Queue, m: nat, i: nat)
    requires Kept(part, q) && m < |part.hist| && i < |part.hist[m].evs| && part.hist[m].evs[i].Firing?
    ensures Kept(SetEvent(part, m, i, Signalled), Signal(q, part.hist[m].offset))
  {
    assert m < part.handed && !AllSignalled(part.hist[m].evs);
    OpenIsZero(part.hist[m].evs);
    OpenOfUpdate(part.hist[m].evs, i, Signalled);
    HandOverOfSetEvent(part, m, i, Signalled);
    var part' := SetEvent(part, m, i, Signalled);
    hide HandOver, Open, AllSignalled;
    assert Pending(part, m);
    AheadSame(part.hist, part'.hist);
    CommitsStay(part, part');
    hide CommitsOk;
    SignalledQueue(part, part', q, m);
  }

  lemma SignalledQueue(part: Partition, part': Partition, q: Queue, m: nat)
    requires AheadHist(part.hist) && QueueOk(part, q) && Pending(part, m)
    requires SameOffsets(part.hist, part'.hist) && part.handed == part'.handed && |part.hist| == |part'.hist|
    requires forall x: nat :: x < |part.hist| && x != m ==> part'.hist[x] == part.hist[x]
    requires Open(part'.hist[m].evs) == Open(part.hist[m].evs) - 1
    ensures QueueOk(part', Signal(q, part.hist[m].offset))
  {
    hide Open;
    var k: nat :| k < |q| && q[k] == Entry(part.hist[m]);
    SignalOne(q, k);
    UniqueStays(q, k);
    SignalledStems(part, part', q, m, k);
    hide UniqueOffsets, AllStem;
    SignalledListed(part, part', q, m, k);
  }

  lemma SignalledListed(part: Partition, part': Partition, q: Queue, m: nat, k: nat)
    requires AheadHist(part.hist) && Listed(q, part) && Pending(part, m) && k < |q| && q[k] == Entry(part.hist[m])
    requires SameOffsets(part.hist, part'.hist) && part.handed == part'.handed && |part.hist| == |part'.hist|
    requires forall x: nat :: x < |part.hist| && x != m ==> part'.hist[x] == part.hist[x]
    requires Open(part'.hist[m].evs) == Open(part.hist[m].evs) - 1
    ensures Listed(q[k := Marked(q[k])], part')
  {
    hide Open, AheadHist;
    var q' := q[k := Marked(q[k])];
    forall x: nat | Pending(part', x) ensures Entry(part'.hist[x]) in q' {
      assert Pending(part, x);
      if x == m {
        assert q'[k] == Entry(part'.hist[m]);
      } else {
        var y: nat :| y < |q| && q[y] == Entry(part.hist[x]);
        PendingDiffer(part, x, m);
        assert q'[y] == Entry(part'.hist[x]);
      }
    }
  }

  lemma SignalledStems(part: Partition, part': Partition, q: Queue, m: nat, k: nat)
    requires AllStem(q, part) && Pending(part, m) && k < |q| && q[k] == Entry(part.hist[m]) && UniqueOffsets(q)
    requires SameOffsets(part.hist, part'.hist) && part.handed == part'.handed && |part.hist| == |part'.hist|
    requires forall x: nat :: x < |part.hist| && x != m ==> part'.hist[x] == part.hist[x]
    requires Open(part'.hist[m].evs) == Open(part.hist[m].evs) - 1
    ensures AllStem(q[k := Marked(q[k])], part')
  {
    hide Open;
    var q' := q[k := Marked(q[k])];
    forall y | 0 <= y < |q'| ensures exists x: nat :: Stems(q'[y], part', x) {
      if y == k {
        assert Stems(q'[y], part', m);
      } else {
        assert q[y] in q;
        var x: nat :| Stems(q[y], part, x);
        assert Stems(q'[y], part', x);
      }
    }
  }

  lemma UniqueStays(q: Queue, k: nat)
    requires UniqueOffsets(q) && k < |q|
    ensures UniqueOffsets(q[k := Marked(q[k])])
  {
  }

  lemma KeptFetch(part: Partition, q: Queue, offset: int, n: nat)
    requires Kept(part, q) && part.reader.Fetching? && AheadHist(Fetch'(part, offset, n).hist)
    ensures Kept(Fetch'(part, offset, n), q)
  {
    var part' := Fetch'(part, offset, n);
    assert part'.hist[|part.hist|] == Message(offset, Fresh(n));
    assert HandOver(part');
    assert forall x :: 0 <= x < |part.hist| ==> part'.hist[x] == part.hist[x];
    hide Open, HandOver;
    CommitsFetched(part, part');
    hide CommitsOk, QueueOk;
    QueueStays(part, part', q);
  }

  lemma CommitsFetched(part: Partition, part': Partition)
    requires CommitsOk(part) && AheadHist(part'.hist) && part'.commits == part.commits
    requires |part'.hist| == |part.hist| + 1 && part'.hist[..|part.hist|] == part.hist
    ensures CommitsOk(part')
  {
    var n := |part.hist|;
    assert forall x :: 0 <= x < n ==> part'.hist[x] == part.hist[x];
    forall c | 0 <= c < |part'.commits|
      ensures Reached(part'.hist, part'.commits[c].position)
      ensures part'.hist[n].evs != [] ==> part'.commits[c].position <= part'.hist[n].offset
    {
      assert Reached(part.hist, part.commits[c].position);
      var x: nat :| x < n && part.commits[c].position <= part.hist[x].offset + 1;
      assert part'.hist[x].offset == part.hist[x].offset;
    }
  }

  lemma KeptHandOff(part: Partition, q: Queue)
    requires Kept(part, q) && part.reader.Holding?
    ensures Kept(part.(handed := part.handed + 1, reader := Emitting(0)),
                 if HasOffset(q, Last(part).offset) then q else q + [Incoming(part)])
  {
    var part' := part.(handed := part.handed + 1, reader := Emitting(0));
    OpenOfUnsent(part.hist[part.handed].evs);
    assert HandOver(part');
    hide Open;
    CommitsStay(part, part');
    hide CommitsOk;
    QueueHandOff(part, part', q);
  }

  lemma QueueHandOff(part: Partition, part': Partition, q: Queue)
    requires QueueOk(part, q) && AheadHist(part.hist) && part'.hist == part.hist
    requires part.handed + 1 == part'.handed == |part.hist| && Open(Last(part).evs) == |Last(part).evs|
    ensures QueueOk(part', if HasOffset(q, Last(part).offset) then q else q + [Incoming(part)])
  {
    hide Open, UniqueOffsets, Listed, Rising;
    var m, e := part.handed, Incoming(part);
    forall x <- q
      ensures exists y: nat :: Stems(x, part', y)
      ensures part.hist[m].evs != [] ==> x.offset < part.hist[m].offset
    {
      var y: nat :| Stems(x, part, y);
      assert Stems(x, part', y);
    }
    assert Stems(e, part', m);
    HandOffListed(part, part', q);
    if !HasOffset(q, Last(part).offset) {
      QueueAppended(q, e);
    }
  }

  lemma QueueAppended(q: Queue, e: Tracked)
    requires UniqueOffsets(q) && Rising(q) && !HasOffset(q, e.offset)
    requires !e.delivered ==> forall x <- q :: x.offset < e.offset
    ensures UniqueOffsets(q + [e]) && Rising(q + [e])
  {
  }

  lemma HandOffListed(part: Partition, part': Partition, q: Queue)
    requires Listed(q, part) && AllStem(q, part) && AheadHist(part.hist) && part'.hist == part.hist
    requires part.handed + 1 == part'.handed == |part.hist| && Open(Last(part).evs) == |Last(part).evs|
    ensures Listed(if HasOffset(q, Last(part).offset) then q else q + [Incoming(part)], part')
  {
    hide Open, AllStem, Stems;
    var m, e := part.handed, Incoming(part);
    NewOffset(part, q);
    hide AheadHist;
    forall x: nat | Pending(part', x)
      ensures Entry(part'.hist[x]) in if HasOffset(q, Last(part).offset) then q else q + [e]
    {
      if x < m {
        assert Pending(part, x);
      } else {
        assert e == Entry(part'.hist[x]) && (q + [e])[|q|] == e;
      }
    }
  }

  /** A message with events is not taken for one that is queued. */
  lemma NewOffset(part: Partition, q: Queue)
    requires AllStem(q, part) && AheadHist(part.hist) && part.handed + 1 == |part.hist|
    ensures Last(part).evs != [] ==> !HasOffset(q, Last(part).offset)
  {
    hide Pending;
    forall i | 0 <= i < |q| && Last(part).evs != [] ensures q[i].offset != Last(part).offset {
      assert q[i] in q;
      var y: nat :| Stems(q[i], part, y);
    }
  }

  /** A commit covers no message with a signal missing: such a message is queued behind, or not handed over yet. */
  lemma CommitIsBelow(part: Partition, q: Queue, m: nat)
    requires HandOver(part) && AheadHist(part.hist) && QueueOk(part, q)
    requires Prefix(q) > 0 && m < |part.hist| && !AllSignalled(part.hist[m].evs)
    ensures q[Prefix(q) - 1].offset < part.hist[m].offset
  {
    var n := Prefix(q);
    OpenIsZero(part.hist[m].evs);
    hide Open;
    assert q[n - 1] in q;
    var y: nat :| Stems(q[n - 1], part, y);
    if m < part.handed {
      assert Pending(part, m);
      var k: nat :| k < |q| && q[k] == Entry(part.hist[m]);
      assert k >= n;
    }
  }

  lemma KeptCommit(part: Partition, q: Queue, accepted: bool)
    requires Kept(part, q)
    ensures Kept(Commit'(part, q, accepted), q[Prefix(q)..])
  {
    var part' := Commit'(part, q, accepted);
    assert HandOver(part');
    hide HandOver;
    CommitsGrow(part, q, accepted);
    hide CommitsOk;
    QueueTrimmed(part, q, part');
  }

  lemma ListedTrimmed(part: Partition, q: Queue, part': Partition, x: nat)
    requires Listed(q, part) && part'.hist == part.hist && part'.handed == part.handed && Pending(part', x)
    ensures Entry(part'.hist[x]) in q[Prefix(q)..]
  {
    hide Open;
    var n := Prefix(q);
    assert Pending(part, x);
    var k: nat :| k < |q| && q[k] == Entry(part.hist[x]);
    assert k >= n && q[n..][k - n] == q[k];
  }

  lemma StemsTrimmed(part: Partition, q: Queue, part': Partition, e: Tracked)
    requires AllStem(q, part) && part'.hist == part.hist && part'.handed == part.handed && e in q
    ensures exists x: nat :: Stems(e, part', x)
  {
    hide Open;
    var x: nat :| Stems(e, part, x);
    assert Stems(e, part', x);
  }

  lemma RisingTrimmed(q: Queue, n: nat)
    requires n <= |q| && UniqueOffsets(q) && Rising(q)
    ensures UniqueOffsets(q[n..]) && Rising(q[n..])
  {
  }

  lemma QueueTrimmed(part: Partition, q: Queue, part': Partition)
    requires QueueOk(part, q) && part'.hist == part.hist && part'.handed == part.handed
    ensures QueueOk(part', q[Prefix(q)..])
  {
    hide Stems, UniqueOffsets, Rising, Prefix, Entry, Open;
    var n := Prefix(q);
    RisingTrimmed(q, n);
    forall x: nat | Pending(part', x) ensures Entry(part'.hist[x]) in q[n..] {
      ListedTrimmed(part, q, part', x);
    }
    forall e <- q[n..] ensures exists x: nat :: Stems(e, part', x) {
      StemsTrimmed(part, q, part', e);
    }
  }

  lemma CommitsGrow(part: Partition, q: Queue, accepted: bool)
    requires HandOver(part) && AheadHist(part.hist) && QueueOk(part, q) && CommitsOk(part)
    ensures CommitsOk(Commit'(part, q, accepted))
  {
    var n, part' := Prefix(q), Commit'(part, q, accepted);
    if n > 0 {
      var position := q[n - 1].offset + 1;
      assert q[n - 1] in q;
      var x: nat :| Stems(q[n - 1], part, x);
      assert Reached(part'.hist, position);
      forall m | 0 <= m < |part.hist| && part.hist[m].offset < position ensures AllSignalled(part.hist[m].evs) {
        if !AllSignalled(part.hist[m].evs) {
          CommitIsBelow(part, q, m);
        }
      }
      assert part'.commits == part.commits + [Commit(position, accepted)];
    } else {
      assert part'.commits == part.commits;
    }
  }

  /** A reader that moves on leaves everything else as it is. */
  lemma KeptReader(part: Partition, q: Queue, part': Partition)
    requires Kept(part, q) && HandOver(part') && part' == part.(reader := part'.reader)
    ensures Kept(part', q)
  {
    assert part.handed <= |part.hist|;
    hide HandOver, Open, AllSignalled;
    CommitsStay(part, part');
    hide CommitsOk, QueueOk;
    QueueStays(part, part', q);
  }

  lemma KeptStep(s: Topic, st: Step, p: nat)
    requires Enabled(s, st) && p < |s.parts| && Kept(s.parts[p], At(s.queues, p))
             && AheadHist(Apply(s, st).parts[p].hist)
    requires Emission(s.parts[p])
    ensures Kept(Apply(s, st).parts[p], At(Apply(s, st).queues, p))
  {
    if st.BeginTick? || st.EndTick? || st.p != p {
      Untouched(s, st, p);
    } else if st.Copy? || st.FinishCopy? || st.Fire? {
      KeptEventStep(s, st);
    } else if st.Emit? {
      KeptEmit(s, p);
    } else if MovesReader(st) {
      KeptMove(s, st);
    } else {
      KeptMessage(s, st);
    }
  }

  lemma KeptMove(s: Topic, st: Step)
    requires Enabled(s, st) && MovesReader(st) && Kept(s.parts[st.p], At(s.queues, st.p))
    ensures Kept(Apply(s, st).parts[st.p], At(Apply(s, st).queues, st.p))
  {
    HandOverStep(s, st, st.p);
    hide Kept, HandOver;
    var part' := Apply(s, st).parts[st.p];
    assert part' == s.parts[st.p].(reader := part'.reader);
    KeptReader(s.parts[st.p], At(s.queues, st.p), part');
  }

  lemma KeptMessage(s: Topic, st: Step)
    requires Enabled(s, st) && (st.Fetch? || st.HandOff? || st.CommitOne?) && Kept(s.parts[st.p], At(s.queues, st.p))
    requires AheadHist(Apply(s, st).parts[st.p].hist)
    ensures Kept(Apply(s, st).parts[st.p], At(Apply(s, st).queues, st.p))
  {
    hide Kept;
    var part, q := s.parts[st.p], At(s.queues, st.p);
    match st {
      case Fetch(_, offset, parsed) => KeptFetch(part, q, offset, EventCount(parsed, s.dropOnParserError));
      case HandOff(_) => KeptHandOff(part, q);
      case CommitOne(_, accepted) => KeptCommit(part, q, accepted);
    }
  }

  /** A copy that exists, or an event that the reader is about to send, belongs to a message handed over. */
  lemma IsHanded(part: Partition, m: nat, i: nat)
    requires HandOver(part) && m < |part.hist| && i < |part.hist[m].evs| && !part.hist[m].evs[i].Unsent?
    ensures m < part.handed
  {
  }

  lemma KeptEventStep(s: Topic, st: Step)
    requires Enabled(s, st) && (st.Copy? || st.FinishCopy? || st.Fire?) && Kept(s.parts[st.p], At(s.queues, st.p))
    ensures Kept(Apply(s, st).parts[st.p], At(Apply(s, st).queues, st.p))
  {
    var part, q := s.parts[st.p], At(s.queues, st.p);
    IsHanded(part, st.m, st.i);
    hide Kept;
    match st {
      case Copy(_, m, i) => KeptEvent(part, q, m, i, Live(part.hist[m].evs[i].copies + 1));
      case FinishCopy(_, m, i) => KeptEvent(part, q, m, i, Finish(part.hist[m].evs[i]));
      case Fire(_, m, i) => KeptSignalled(part, q, m, i);
    }
  }

  lemma KeptEmit(s: Topic, p: nat)
    requires Enabled(s, Emit(p)) && Kept(s.parts[p], At(s.queues, p)) && Emission(s.parts[p])
    ensures Kept(Apply(s, Emit(p)).parts[p], At(Apply(s, Emit(p)).queues, p))
  {
    var part, q := s.parts[p], At(s.queues, p);
    var m, i := |part.hist| - 1, part.reader.next;
    HandOverStep(s, Emit(p), p);
    assert part.hist[m].evs[i].Unsent? && m < part.handed;
    hide Kept;
    KeptEvent(part, q, m, i, Live(1));
    var part' := Apply(s, Emit(p)).parts[p];
    assert part' == SetEvent(part, m, i, Live(1)).(reader := part'.reader);
    KeptReader(SetEvent(part, m, i, Live(1)), q, part');
  }

  // ---- Runs ----

  /** No step takes a fetched message back. */
  lemma HistGrows(s: Topic, st: Step, p: nat)
    requires Enabled(s, st) && p < |s.parts|
    ensures p < |Apply(s, st).parts| && SameOffsets(s.parts[p].hist, Apply(s, st).parts[p].hist)
  {
    if st.BeginTick? || st.EndTick? || st.p != p {
      Untouched(s, st, p);
    } else if st.Fetch? {
      var part' := Apply(s, st).parts[p];
      assert part'.hist[..|s.parts[p].hist|] == s.parts[p].hist;
    } else if st.Emit? || st.Copy? || st.FinishCopy? || st.Fire? {
      var m := if st.Emit? then |s.parts[p].hist| - 1 else st.m;
      assert Apply(s, st).parts[p].hist == s.parts[p].hist[m := Apply(s, st).parts[p].hist[m]];
    } else {
      assert Apply(s, st).parts[p].hist == s.parts[p].hist;
    }
  }

  lemma {:induction false} KeptAlways(trace: seq<Topic>, steps: seq<Step>, k: nat, p: nat)
    requires Run(trace, steps) && k < |trace| && p < |trace[k].parts| && AheadHist(trace[k].parts[p].hist)
    ensures Kept(trace[k].parts[p], At(trace[k].queues, p)) && Emission(trace[k].parts[p])
  {
    if k == 0 {
      assert trace[0].parts[p] == Partition([], 0, 0, [], Fetching);
    } else {
      var s, st := trace[k - 1], steps[k - 1];
      SameParts(s, st);
      HistGrows(s, st, p);
      AheadPrefix(s.parts[p].hist, trace[k].parts[p].hist);
      hide Apply, Enabled;
      KeptAlways(trace, steps, k - 1, p);
      KeptStep(s, st, p);
      EmissionStep(s, st, p);
    }
  }

  lemma AheadPrefix(a: seq<Message>, b: seq<Message>)
    requires SameOffsets(a, b) && AheadHist(b)
    ensures AheadHist(a)
  {
    forall j | 0 <= j < |a| && a[j].evs != [] ensures b[j].evs != [] {
      assert |a[j].evs| == |b[j].evs|;
    }
  }

  // ---- Unsafe sequences ----

  lemma Extend(trace: seq<Topic>, steps: seq<Step>, s: Topic, st: Step)
    returns (trace': seq<Topic>, steps': seq<Step>, s': Topic)
    requires Run(trace, steps) && trace[|steps|] == s && Enabled(s, st)
    ensures s' == Apply(s, st) && Run(trace', steps') && trace'[|steps'|] == s' && trace'[0] == trace[0]
  {
    s' := Apply(s, st);
    trace', steps' := trace + [s'], steps + [st];
  }

  /** The controller selects, nobody has left, and only partition p has fetched anything. */
  ghost predicate Calm(s: Topic, p: nat) {
    && p < |s.parts| && s.queues.Keys <= {p} && s.phase.Selecting? && !s.done && !s.exitIfEmpty && s.capacity >= 1
  }

  /** Every message up to the n-th is done and committed. */
  ghost predicate AllCommitted(part: Partition, n: nat) {
    && n <= |part.hist|
    && forall m :: 0 <= m < n ==> IsCommitted(part, part.hist[m].offset)
  }

  ghost predicate IsCommitted(part: Partition, offset: int) {
    exists c :: 0 <= c < |part.commits| && part.commits[c].position == offset + 1
  }

  /** Between two messages of partition p. */
  ghost predicate Clean(s: Topic, p: nat, a: seq<Arrival>) {
    && Calm(s, p) && s.tokens == 0 && At(s.queues, p) == []
    && var part := s.parts[p];
       part.reader.Fetching? && Arrivals(part.hist) == a && AllCommitted(part, |part.hist|)
  }

  /** In the middle of the last message, i of whose events are done, the others not sent. */
  ghost predicate Sending(s: Topic, p: nat, a: seq<Arrival>, i: nat) {
    && Calm(s, p) && s.tokens == 1 && a != [] && i <= a[|a| - 1].events
    && var part, last := s.parts[p], a[|a| - 1];
       && part.reader == Emitting(i) && Arrivals(part.hist) == a && AllCommitted(part, |part.hist| - 1)
       && At(s.queues, p) == [Tracked(last.offset, last.events - i, i == last.events)]
       && forall k :: i <= k < last.events ==> Last(part).evs[k].Unsent?
  }

  lemma BeginMessage(trace: seq<Topic>, steps: seq<Step>, s: Topic, p: nat, a: seq<Arrival>, next: Arrival)
    returns (trace': seq<Topic>, steps': seq<Step>, s': Topic)
    requires Run(trace, steps) && trace[|steps|] == s && Clean(s, p, a)
    ensures Run(trace', steps') && trace'[|steps'|] == s' && trace'[0] == trace[0] && Sending(s', p, a + [next], 0)
  {
    hide Run;
    var m := Message(next.offset, Fresh(next.events));
    trace', steps', s' := Extend(trace, steps, s, Fetch(p, next.offset, Events(next.events)));
    assert s'.parts[p].hist == s.parts[p].hist + [m];
    trace', steps', s' := Extend(trace', steps', s', Acquire(p));
    trace', steps', s' := Extend(trace', steps', s', HandOff(p));
    assert s'.parts[p].hist == s.parts[p].hist + [m] && Last(s'.parts[p]) == m;
    assert Arrivals(s'.parts[p].hist) == a + [next];
    assert forall x :: 0 <= x < |a| ==> s'.parts[p].hist[x] == s.parts[p].hist[x];
    assert forall x :: 0 <= x < |a| && IsCommitted(s.parts[p], s.parts[p].hist[x].offset) ==>
      IsCommitted(s'.parts[p], s'.parts[p].hist[x].offset);
  }

  lemma SendOne(trace: seq<Topic>, steps: seq<Step>, s: Topic, p: nat, a: seq<Arrival>, i: nat)
    returns (trace': seq<Topic>, steps': seq<Step>, s': Topic)
    requires Run(trace, steps) && trace[|steps|] == s && Sending(s, p, a, i) && i < a[|a| - 1].events
    ensures Run(trace', steps') && trace'[|steps'|] == s' && trace'[0] == trace[0] && Sending(s', p, a, i + 1)
  {
    hide Run;
    var m, hist := |a| - 1, s.parts[p].hist;
    assert Arrivals(hist)[m] == a[m] && hist[m].offset == a[m].offset;
    trace', steps', s' := Extend(trace, steps, s, Emit(p));
    trace', steps', s' := Extend(trace', steps', s', FinishCopy(p, m, i));
    assert s'.parts[p].hist[m].evs == hist[m].evs[i := Firing];
    trace', steps', s' := Extend(trace', steps', s', Fire(p, m, i));
    assert s'.parts[p].hist[m].evs == hist[m].evs[i := Signalled];
    assert s'.parts[p].hist == hist[m := Message(a[m].offset, hist[m].evs[i := Signalled])];
    assert s' == s.(parts := s.parts[p := s.parts[p].(hist := s'.parts[p].hist, reader := Emitting(i + 1))],
                    queues := s.queues[p := Signal(At(s.queues, p), a[m].offset)]);
    SentOne(s, p, a, i, s');
  }

  lemma SentOne(s: Topic, p: nat, a: seq<Arrival>, i: nat, s': Topic)
    requires Sending(s, p, a, i) && i < a[|a| - 1].events && |s'.parts| == |s.parts|
    requires var m, hist := |a| - 1, s.parts[p].hist;
             && |hist| == |a| && |hist[m].evs| == a[m].events
             && s'.parts[p].hist == hist[m := Message(a[m].offset, hist[m].evs[i := Signalled])]
             && s' == s.(parts := s.parts[p := s.parts[p].(hist := s'.parts[p].hist, reader := Emitting(i + 1))],
                         queues := s.queues[p := Signal(At(s.queues, p), a[m].offset)])
    ensures Sending(s', p, a, i + 1)
  {
    var m, hist := |a| - 1, s.parts[p].hist;
    assert Arrivals(hist)[m] == a[m];
    assert Arrivals(s'.parts[p].hist) == Arrivals(hist);
    CommittedStays(s.parts[p], s'.parts[p], m);
    hide AllCommitted, Arrivals;
    var q, q' := At(s.queues, p), At(s'.queues, p);
    assert q'[0] == Marked(q[0]) && |q'| == 1;
    assert q' == [Tracked(a[m].offset, a[m].events - (i + 1), i + 1 == a[m].events)];
    forall k | i + 1 <= k < a[m].events ensures Last(s'.parts[p]).evs[k].Unsent? {
      assert Last(s.parts[p]).evs[k].Unsent?;
    }
  }

  lemma CommittedStays(part: Partition, part': Partition, n: nat)
    requires AllCommitted(part, n) && part.commits <= part'.commits && n <= |part'.hist|
    requires forall x :: 0 <= x < n ==> part'.hist[x].offset == part.hist[x].offset
    ensures AllCommitted(part', n)
  {
    forall x | 0 <= x < n ensures IsCommitted(part', part'.hist[x].offset) {
      assert IsCommitted(part, part.hist[x].offset);
      var c :| 0 <= c < |part.commits| && part.commits[c].position == part.hist[x].offset + 1;
      assert part'.commits[c] == part.commits[c];
    }
  }

  lemma {:induction false} SendAll(trace: seq<Topic>, steps: seq<Step>, s: Topic, p: nat, a: seq<Arrival>, i: nat)
    returns (trace': seq<Topic>, steps': seq<Step>, s': Topic)
    requires Run(trace, steps) && trace[|steps|] == s && Sending(s, p, a, i)
    ensures Run(trace', steps') && trace'[|steps'|] == s' && trace'[0] == trace[0]
    ensures a != [] && Sending(s', p, a, a[|a| - 1].events)
    decreases a[|a| - 1].events - i
  {
    trace', steps', s' := trace, steps, s;
    if i < a[|a| - 1].events {
      hide Run, Calm;
      trace', steps', s' := SendOne(trace, steps, s, p, a, i);
      trace', steps', s' := SendAll(trace', steps', s', p, a, i + 1);
    }
  }

  lemma EndMessage(trace: seq<Topic>, steps: seq<Step>, s: Topic, p: nat, a: seq<Arrival>)
    returns (trace': seq<Topic>, steps': seq<Step>, s': Topic)
    requires Run(trace, steps) && trace[|steps|] == s && a != [] && Sending(s, p, a, a[|a| - 1].events)
    ensures Run(trace', steps') && trace'[|steps'|] == s' && trace'[0] == trace[0] && Clean(s', p, a)
  {
    hide Run;
    var m, q := |a| - 1, At(s.queues, p);
    trace', steps', s' := Extend(trace, steps, s, NextFetch(p));
    trace', steps', s' := Extend(trace', steps', s', BeginTick);
    trace', steps', s' := Extend(trace', steps', s', CommitOne(p, true));
    trace', steps', s' := Extend(trace', steps', s', EndTick);
    assert q[0].delivered && Prefix(q) == 1 by { assert q[1..] == []; }
    assert s'.parts[p].commits == s.parts[p].commits + [Commit(a[m].offset + 1, true)];
    assert s'.parts[p].commits[|s.parts[p].commits|].position == s'.parts[p].hist[m].offset + 1;
    forall x | 0 <= x <= m ensures IsCommitted(s'.parts[p], s'.parts[p].hist[x].offset) {
      if x < m {
        assert IsCommitted(s.parts[p], s.parts[p].hist[x].offset);
        var c :| 0 <= c < |s.parts[p].commits| && s.parts[p].commits[c].position == s.parts[p].hist[x].offset + 1;
        assert s'.parts[p].commits[c] == s.parts[p].commits[c];
      }
    }
  }

  /** One after the other, each message is handed over, delivered and committed. */
  lemma {:induction false} PlayAll(s0: Topic, p: nat, a: seq<Arrival>)
    returns (trace: seq<Topic>, steps: seq<Step>, s: Topic)
    requires Initial(s0) && p < |s0.parts|
    ensures Run(trace, steps) && trace[|steps|] == s && trace[0] == s0 && Clean(s, p, a)
  {
    if a == [] {
      trace, steps, s := [s0], [], s0;
      assert s0.parts[p] == Partition([], 0, 0, [], Fetching);
    } else {
      var front, last := a[..|a| - 1], a[|a| - 1];
      assert a == front + [last];
      hide Run, Clean, Sending;
      trace, steps, s := PlayAll(s0, p, front);
      trace, steps, s := BeginMessage(trace, steps, s, p, front, last);
      trace, steps, s := SendAll(trace, steps, s, p, a, 0);
      trace, steps, s := EndMessage(trace, steps, s, p, a);
    }
  }

  /** A message that yields events at or below the offset of an earlier one: a run that has fetched just so much
      has committed beyond it. */
  lemma Breaks(s0: Topic, p: nat, a: seq<Arrival>) returns (trace: seq<Topic>, steps: seq<Step>, s: Topic)
    requires Initial(s0) && p < |s0.parts| && !Ahead(a)
    ensures Run(trace, steps) && trace[|steps|] == s && trace[0] == s0
    ensures p < |s.parts| && Arrivals(s.parts[p].hist) <= a && !CommitsCover(s.parts[p])
  {
    var i, j :| 0 <= i < j < |a| && a[j].events > 0 && a[j].offset <= a[i].offset;
    trace, steps, s := PlayAll(s0, p, a[..j]);
    var part := s.parts[p];
    assert part.hist[i].offset == Arrivals(part.hist)[i].offset == a[i].offset;
    assert IsCommitted(part, part.hist[i].offset);
    var c :| 0 <= c < |part.commits| && part.commits[c].position == a[i].offset + 1;
    hide Run;
    trace, steps, s := Extend(trace, steps, s, Fetch(p, a[j].offset, Events(a[j].events)));
    assert s.parts[p].hist == part.hist + [Message(a[j].offset, Fresh(a[j].events))];
    assert Arrivals(s.parts[p].hist) == a[..j] + [a[j]] == a[..j + 1];
    assert s.parts[p].hist[j].evs[0].Unsent? && s.parts[p].commits[c].position > s.parts[p].hist[j].offset;
  }

  // ---- Both together ----

  /** Every run from s0 in which partition p has fetched no more than a first part of `a` keeps the promise: no
      commit covers a message of which anything is in flight. */
  ghost predicate PromiseKept(s0: Topic, p: nat, a: seq<Arrival>) {
    forall trace: seq<Topic>, steps: seq<Step> ::
      Run(trace, steps) && trace[0] == s0 && p < |trace[|steps|].parts|
      && Arrivals(trace[|steps|].parts[p].hist) <= a ==>
        CommitsCover(trace[|steps|].parts[p])
  }

  /** For every topic, partition and sequence of fetches: all runs with these fetches keep the promise, whatever
      else happens in them, if and only if no message that yields events comes at or below an offset fetched before. */
  lemma FetchOrderIff(s0: Topic, p: nat, a: seq<Arrival>)
    requires Initial(s0) && p < |s0.parts|
    ensures PromiseKept(s0, p, a) <==> Ahead(a)
  {
    if Ahead(a) {
      forall trace: seq<Topic>, steps: seq<Step>
        | Run(trace, steps) && trace[0] == s0 && p < |trace[|steps|].parts|
          && Arrivals(trace[|steps|].parts[p].hist) <= a
        ensures CommitsCover(trace[|steps|].parts[p])
      {
        AheadArrivals(trace[|steps|].parts[p].hist, a);
        KeptAlways(trace, steps, |steps|, p);
      }
    } else {
      var trace, steps, s := Breaks(s0, p, a);
      assert !CommitsCover(trace[|steps|].parts[p]);
    }
  }

  lemma AheadArrivals(hist: seq<Message>, a: seq<Arrival>)
    requires Ahead(a) && Arrivals(hist) <= a
    ensures AheadHist(hist)
  {
    forall i, j | 0 <= i < j < |hist| && hist[j].evs != [] ensures hist[i].offset < hist[j].offset {
      assert Arrivals(hist)[i] == a[i] && Arrivals(hist)[j] == a[j];
    }
  }
}
