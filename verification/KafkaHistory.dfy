/** The history of every event of a Kafka topic (plugins/inputs/kafka/reader.go, core/tracker.go): how often it was
    sent, copied, finished and signalled in a run, and what that says about commits. */
module KafkaHistory {
  import opened Delivery
  import opened KafkaController
  import opened KafkaProtocol

  // ---- Every event is sent in its turn, whatever the offsets ----

  lemma EmissionOfEvent(part: Partition, m: nat, i: nat, e: Ev)
    requires HandOver(part) && Emission(part) && m < |part.hist| && i < |part.hist[m].evs|
    requires !part.hist[m].evs[i].Unsent? && !e.Unsent?
    ensures Emission(SetEvent(part, m, i, e))
  {
  }

  lemma EmissionEvent(s: Topic, st: Step)
    requires Enabled(s, st) && (st.Copy? || st.FinishCopy? || st.Fire?)
    requires HandOver(s.parts[st.p]) && Emission(s.parts[st.p])
    ensures Emission(Apply(s, st).parts[st.p])
  {
    var part := s.parts[st.p];
    hide HandOver, Emission;
    match st {
      case Copy(_, m, i) => EmissionOfEvent(part, m, i, Live(part.hist[m].evs[i].copies + 1));
      case FinishCopy(_, m, i) => EmissionOfEvent(part, m, i, Finish(part.hist[m].evs[i]));
      case Fire(_, m, i) => EmissionOfEvent(part, m, i, Signalled);
    }
  }

  lemma EmissionSend(part: Partition)
    requires Emission(part) && part.reader.Emitting? && part.hist != [] && part.reader.next < |Last(part).evs|
    ensures var i := part.reader.next;
            Emission(SetEvent(part, |part.hist| - 1, i, Live(1)).(reader := Emitting(i + 1)))
  {
  }

  lemma EmissionReader(s: Topic, st: Step)
    requires Enabled(s, st) && (MovesReader(st) || st.Fetch? || st.HandOff? || st.CommitOne?)
    requires HandOver(s.parts[st.p]) && Emission(s.parts[st.p])
    ensures Emission(Apply(s, st).parts[st.p])
  {
    var part, part' := s.parts[st.p], Apply(s, st).parts[st.p];
    if st.Fetch? {
      assert part'.hist[..|part.hist|] == part.hist;
    }
  }

  lemma EmissionStep(s: Topic, st: Step, p: nat)
    requires Enabled(s, st) && p < |s.parts| && HandOver(s.parts[p]) && Emission(s.parts[p])
    ensures Emission(Apply(s, st).parts[p])
  {
    hide HandOver, Emission;
    if st.BeginTick? || st.EndTick? || st.p != p {
      Untouched(s, st, p);
    } else if st.Copy? || st.FinishCopy? || st.Fire? {
      EmissionEvent(s, st);
    } else if st.Emit? {
      EmissionSend(s.parts[p]);
    } else {
      EmissionReader(s, st);
    }
  }

  lemma {:induction false} EmissionAlways(trace: seq<Topic>, steps: seq<Step>, k: nat, p: nat)
    requires Run(trace, steps) && k < |trace| && p < |trace[k].parts|
    ensures Emission(trace[k].parts[p])
  {
    hide Run, Apply, Enabled, Emission, HandOver;
    OneStep(trace, steps, k, p);
    if k > 0 {
      EmissionAlways(trace, steps, k - 1, p);
      AccountingAlways(trace, steps, k - 1);
      EmissionStep(trace[k - 1], steps[k - 1], p);
    }
  }

  /** The k-th state of a run: the first one has nothing to send, any other comes from a step. */
  lemma OneStep(trace: seq<Topic>, steps: seq<Step>, k: nat, p: nat)
    requires Run(trace, steps) && k < |trace| && p < |trace[k].parts|
    ensures |trace| == |steps| + 1
    ensures k > 0 ==>
              && Enabled(trace[k - 1], steps[k - 1]) && trace[k] == Apply(trace[k - 1], steps[k - 1])
              && p < |trace[k - 1].parts|
    ensures k == 0 ==> trace[k].parts[p].hist == [] && Emission(trace[k].parts[p])
  {
    if k > 0 {
      SameParts(trace[k - 1], steps[k - 1]);
    }
  }

  // ---- Copies and their ends, counted ----

  /** How often a step was taken. */
  ghost function Times(steps: seq<Step>, st: Step): nat {
    multiset(steps)[st]
  }

  lemma TimesNext(steps: seq<Step>, k: nat, st: Step)
    requires k < |steps|
    ensures Times(steps[..k + 1], st) == Times(steps[..k], st) + if steps[k] == st then 1 else 0
  {
    assert steps[..k + 1] == steps[..k] + [steps[k]];
  }

  lemma NoTimes()
    ensures forall st: Step :: Times([], st) == 0
  {
  }

  lemma TimesSlice(steps: seq<Step>, a: nat, b: nat, st: Step)
    requires a < b <= |steps|
    ensures Times(steps[a..b], st) == Times(steps[a..b - 1], st) + if steps[b - 1] == st then 1 else 0
    ensures Times(steps[a..a], st) == 0
  {
    assert steps[a..b] == steps[a..b - 1] + [steps[b - 1]];
  }

  /** An event after c copies, d ends of copies and f signals. */
  ghost predicate Counted(e: Ev, c: nat, d: nat, f: nat) {
    match e
    case Unsent => c == d == f == 0
    case Live(n) => d <= c && n == 1 + c - d && f == 0
    case Firing => d == c + 1 && f == 0
    case Signalled => d == c + 1 && f == 1
  }

  /** What a step does to one event. */
  lemma EventStep(s: Topic, st: Step, p: nat, m: nat, i: nat)
    requires Enabled(s, st) && p < |s.parts| && Emission(s.parts[p]) && HasEvent(Apply(s, st), p, m, i)
    ensures var e := Event(Apply(s, st), p, m, i);
            if !HasEvent(s, p, m, i) then e.Unsent? && st.Fetch?
            else
              var before := Event(s, p, m, i);
              if st == Copy(p, m, i) then before.Live? && e == Live(before.copies + 1)
              else if st == FinishCopy(p, m, i) then before.Live? && e == Finish(before)
              else if st == Fire(p, m, i) then before.Firing? && e.Signalled?
              else e == before || (before.Unsent? && e == Live(1))
  {
    if st.BeginTick? || st.EndTick? || st.p != p {
      Untouched(s, st, p);
    } else if st.Fetch? {
      var part := s.parts[p];
      assert Apply(s, st).parts[p].hist[..|part.hist|] == part.hist;
      assert Apply(s, st).parts[p].hist[|part.hist|].evs == Fresh(EventCount(st.parsed, s.dropOnParserError));
    }
  }

  /** An event that is there is counted right; one that is not there yet has no history. */
  ghost predicate CountedAt(s: Topic, p: nat, m: nat, i: nat, c: nat, d: nat, f: nat) {
    if HasEvent(s, p, m, i) then Counted(Event(s, p, m, i), c, d, f) else c == d == f == 0
  }

  lemma CountedStep(s: Topic, st: Step, p: nat, m: nat, i: nat, c: nat, d: nat, f: nat)
    requires Enabled(s, st) && p < |s.parts| && Emission(s.parts[p]) && CountedAt(s, p, m, i, c, d, f)
    ensures CountedAt(Apply(s, st), p, m, i, c + (if st == Copy(p, m, i) then 1 else 0),
                      d + (if st == FinishCopy(p, m, i) then 1 else 0), f + (if st == Fire(p, m, i) then 1 else 0))
  {
    if HasEvent(Apply(s, st), p, m, i) {
      EventStep(s, st, p, m, i);
    } else {
      StillNoEvent(s, st, p, m, i);
    }
    hide Apply, Enabled, Emission, HasEvent, Event;
  }

  lemma {:induction false} CountedAlways(trace: seq<Topic>, steps: seq<Step>, k: nat, p: nat, m: nat, i: nat)
    requires Run(trace, steps) && k < |trace| && p < |trace[k].parts|
    ensures CountedAt(trace[k], p, m, i, Times(steps[..k], Copy(p, m, i)), Times(steps[..k], FinishCopy(p, m, i)),
                      Times(steps[..k], Fire(p, m, i)))
  {
    hide Run, Times, Emission, Counted, Apply, Enabled;
    OneStep(trace, steps, k, p);
    if k == 0 {
      assert Times(steps[..0], Copy(p, m, i)) == Times(steps[..0], FinishCopy(p, m, i)) == 0 by { NoTimes(); }
      assert Times(steps[..0], Fire(p, m, i)) == 0 by { NoTimes(); }
    } else {
      var s, st := trace[k - 1], steps[k - 1];
      hide CountedAt;
      CountedAlways(trace, steps, k - 1, p, m, i);
      EmissionAlways(trace, steps, k - 1, p);
      TimesNext(steps, k - 1, Copy(p, m, i));
      TimesNext(steps, k - 1, FinishCopy(p, m, i));
      TimesNext(steps, k - 1, Fire(p, m, i));
      CountedStep(s, st, p, m, i, Times(steps[..k - 1], Copy(p, m, i)), Times(steps[..k - 1], FinishCopy(p, m, i)),
                  Times(steps[..k - 1], Fire(p, m, i)));
    }
  }

  lemma StillNoEvent(s: Topic, st: Step, p: nat, m: nat, i: nat)
    requires Enabled(s, st) && !HasEvent(Apply(s, st), p, m, i)
    ensures !HasEvent(s, p, m, i) && st != Copy(p, m, i) && st != FinishCopy(p, m, i) && st != Fire(p, m, i)
  {
    hide At, Prefix, Stored, Trimmed, Signal;
    if p < |s.parts| {
      if st.BeginTick? || st.EndTick? || st.p != p {
        Untouched(s, st, p);
      } else if st.Fetch? && m < |s.parts[p].hist| {
        assert Apply(s, st).parts[p].hist[m] == s.parts[p].hist[m];
      }
    }
  }

  /** The life of an event in any run, by the number c of its copies made and d of its copies finished so far: once
      sent it is in the pipeline with 1 + c - d copies, and its hook runs exactly when the last of them is finished. The
      hook's signal is received at most once, and not before. */
  lemma EventHistory(trace: seq<Topic>, steps: seq<Step>, k: nat, p: nat, m: nat, i: nat)
    requires Run(trace, steps) && k < |trace| && HasEvent(trace[k], p, m, i)
    ensures var e, c, d := Event(trace[k], p, m, i), Times(steps[..k], Copy(p, m, i)),
            Times(steps[..k], FinishCopy(p, m, i));
            && (e.Unsent? ==> c == d == 0)
            && (e.Live? <==> !e.Unsent? && d <= c)
            && (e.Live? ==> e.copies == 1 + c - d)
            && (e.Firing? || e.Signalled? <==> d == c + 1)
            && Times(steps[..k], Fire(p, m, i)) == if e.Signalled? then 1 else 0
  {
    CountedAlways(trace, steps, k, p, m, i);
  }

  /** At-least-once delivery: in every state of every run with ordered offsets, over any interleaving of fetches,
      deliveries, ticks, failed commits and exits: of every event of every message below a position committed so far
      the original and every copy made of it were finished, and its one signal was received. The positions committed
      for a partition strictly increase, and the last one is just behind a fetched message. */
  lemma CommitSafety(trace: seq<Topic>, steps: seq<Step>, k: nat, p: nat)
    requires OrderedRun(trace, steps) && k < |trace| && p < |trace[k].parts|
    ensures var part := trace[k].parts[p];
            && (forall c, m: nat, i: nat ::
                  0 <= c < |part.commits| && HasEvent(trace[k], p, m, i)
                  && part.hist[m].offset < part.commits[c].position
                  ==>
                  && Event(trace[k], p, m, i).Signalled?
                  && Times(steps[..k], FinishCopy(p, m, i)) == Times(steps[..k], Copy(p, m, i)) + 1
                  && Times(steps[..k], Fire(p, m, i)) == 1)
            && (forall i, j :: 0 <= i < j < |part.commits| ==> part.commits[i].position < part.commits[j].position)
            && (part.commits != [] ==>
                  exists m :: 0 <= m < |part.hist|
                    && part.commits[|part.commits| - 1].position == part.hist[m].offset + 1)
  {
    var part := trace[k].parts[p];
    SafeAlways(trace, steps, k, p);
    SafeCovers(part, At(trace[k].queues, p));
    forall c, m: nat, i: nat | 0 <= c < |part.commits| && HasEvent(trace[k], p, m, i)
        && part.hist[m].offset < part.commits[c].position
      ensures Event(trace[k], p, m, i).Signalled?
      ensures Times(steps[..k], FinishCopy(p, m, i)) == Times(steps[..k], Copy(p, m, i)) + 1
      ensures Times(steps[..k], Fire(p, m, i)) == 1
    {
      assert AllSignalled(part.hist[m].evs);
      EventHistory(trace, steps, k, p, m, i);
    }
    if part.commits != [] {
      assert part.commits[|part.commits| - 1].position == part.hist[part.deleted - 1].offset + 1;
    }
  }

  // ---- What is sent for a message ----

  /** Where a reader is between a fetch and its next one: the message has n events, and as many were sent as were
      counted since the fetch. */
  ghost predicate Under(part: Partition, n: nat, sent: nat) {
    && part.hist != [] && |Last(part).evs| == n
    && match part.reader
       case Fetched => sent == 0
       case Holding => sent == 0
       case Emitting(next) => sent == next
       case _ => false
  }

  lemma UnderStep(s: Topic, st: Step, p: nat, n: nat, sent: nat)
    requires Enabled(s, st) && p < |s.parts| && Under(s.parts[p], n, sent) && st != NextFetch(p)
    ensures p < |Apply(s, st).parts| && Under(Apply(s, st).parts[p], n, sent + if st == Emit(p) then 1 else 0)
  {
    if st.BeginTick? || st.EndTick? || st.p != p {
      Untouched(s, st, p);
    }
  }

  lemma FetchedMessage(s: Topic, st: Step)
    requires st.Fetch? && Enabled(s, st)
    ensures Under(Apply(s, st).parts[st.p], EventCount(st.parsed, s.dropOnParserError), 0)
  {
  }

  lemma StepOf(trace: seq<Topic>, steps: seq<Step>, k: nat)
    requires Run(trace, steps) && k < |steps|
    ensures |trace| == |steps| + 1 && Enabled(trace[k], steps[k]) && trace[k + 1] == Apply(trace[k], steps[k])
    ensures trace[k + 1].dropOnParserError == trace[k].dropOnParserError
  {
  }

  /** The message that partition p was given by step a, just before step b. */
  ghost predicate UnderAt(trace: seq<Topic>, steps: seq<Step>, a: nat, b: nat, p: nat, n: nat)
    requires a <= b <= |steps| < |trace|
  {
    p < |trace[b].parts| && Under(trace[b].parts[p], n, Times(steps[a..b], Emit(p)))
  }

  lemma UnderNext(trace: seq<Topic>, steps: seq<Step>, a: nat, b: nat, p: nat, n: nat)
    requires Run(trace, steps) && a <= b < |steps| && UnderAt(trace, steps, a, b, p, n) && steps[b] != NextFetch(p)
    ensures UnderAt(trace, steps, a, b + 1, p, n)
  {
    hide Run, Under, Apply, Enabled, Times;
    StepOf(trace, steps, b);
    TimesSlice(steps, a, b + 1, Emit(p));
    UnderStep(trace[b], steps[b], p, n, Times(steps[a..b], Emit(p)));
  }

  lemma UnderFirst(trace: seq<Topic>, steps: seq<Step>, a: nat)
    requires Run(trace, steps) && a < |steps| && steps[a].Fetch?
    ensures UnderAt(trace, steps, a, a + 1, steps[a].p, EventCount(steps[a].parsed, trace[a].dropOnParserError))
  {
    hide Run, Under, Times;
    StepOf(trace, steps, a);
    TimesSlice(steps, a, a + 1, Emit(steps[a].p));
    FetchedMessage(trace[a], steps[a]);
  }

  lemma {:induction false} UnderAlways(trace: seq<Topic>, steps: seq<Step>, a: nat, b: nat)
    requires Run(trace, steps) && a < b < |trace| && steps[a].Fetch?
    requires forall j :: a < j < b ==> steps[j] != NextFetch(steps[a].p)
    ensures UnderAt(trace, steps, a, b, steps[a].p, EventCount(steps[a].parsed, trace[a].dropOnParserError))
  {
    hide UnderAt, Apply, Enabled, EventCount;
    if b == a + 1 {
      UnderFirst(trace, steps, a);
    } else {
      UnderAlways(trace, steps, a, b - 1);
      UnderNext(trace, steps, a, b - 1, steps[a].p, EventCount(steps[a].parsed, trace[a].dropOnParserError));
    }
  }

  lemma {:induction false} SettingStays(trace: seq<Topic>, steps: seq<Step>, k: nat)
    requires Run(trace, steps) && k < |trace|
    ensures trace[k].dropOnParserError == trace[0].dropOnParserError
  {
    if k > 0 {
      StepOf(trace, steps, k - 1);
      hide Run, Apply, Enabled;
      SettingStays(trace, steps, k - 1);
    }
  }

  /** Between the fetch of a message and the reader's next fetch: what the parser made of the message is sent, one by
      one; a message that the parser rejects is sent as one event, or not at all when such messages are dropped. */
  lemma SentPerMessage(trace: seq<Topic>, steps: seq<Step>, a: nat, b: nat)
    requires Run(trace, steps) && a < b < |steps| && steps[a].Fetch? && steps[b] == NextFetch(steps[a].p)
    requires forall j :: a < j < b ==> steps[j] != NextFetch(steps[a].p)
    ensures var sent := Times(steps[a..b], Emit(steps[a].p));
            match steps[a].parsed
            case Events(count) => sent == count
            case ParserFailed => if trace[0].dropOnParserError then sent == 0 else sent == 1
  {
    UnderAlways(trace, steps, a, b);
    SettingStays(trace, steps, a);
    assert Enabled(trace[b], steps[b]);
  }
}
