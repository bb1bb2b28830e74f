/** The Kafka topic writer's flush (plugins/outputs/kafka/writer.go) with its retryer
    (plugins/common/retryer/retryer.go). */
module KafkaWriter {

  import opened Options

  /** An event of the batch; `serializable` tells what the serializer will say. */
  datatype Event = Event(id: nat, uuid: nat, serializable: bool)

  /** A message, by the position of its event in the batch, and the uuid it carries along. */
  datatype Message = Message(position: nat, uuid: nat)

  datatype Error = NotDelivered | Temporary | Timeout | UnexpectedEof | Permanent | TooLarge

  datatype Status = Status(event: Event, error: Option<Error>)

  type Statuses = map<nat, Status>

  /** What `WriteMessages` returns: no error, an error or nil for each message, a message that is too large, which
      comes with the others to be sent again, one Kafka error for all, or any other error. */
  datatype Answer =
    AllWritten | Each(errors: nat -> Option<Error>) | OneTooLarge(i: nat) | Kafka(temporary: bool) | Other

  /** The broker's answer to the n-th call of `WriteMessages`. */
  type Broker = (nat, seq<Message>) -> Answer

  /** The library names one of the messages as too large. */
  ghost predicate Sound(broker: Broker) {
    forall n, ms: seq<Message> :: ms != [] && broker(n, ms).OneTooLarge? ==> broker(n, ms).i < |ms|
  }

  // ---- What one answer means for one message ----

  predicate Retriable(e: Error) {
    e.Temporary? || e.Timeout? || e.UnexpectedEof?
  }

  predicate Accepts(a: Answer, i: nat) {
    a.AllWritten? || (a.Each? && a.errors(i).None?)
  }

  /** The message goes to the next round. */
  predicate Keeps(a: Answer, i: nat) {
    match a
    case AllWritten => false
    case Each(errors) => errors(i).Some? && Retriable(errors(i).value)
    case OneTooLarge(k) => i != k
    case Kafka(temporary) => temporary
    case Other => false
  }

  /** The status of the i-th message's event after the answer. */
  function ErrorAfter(a: Answer, i: nat, before: Option<Error>): Option<Error> {
    match a
    case AllWritten => None
    case Each(errors) => errors(i)
    case OneTooLarge(k) => if i == k then Some(TooLarge) else before
    case Kafka(temporary) => Some(if temporary then Temporary else Permanent)
    case Other => Some(Permanent)
  }

  /** The messages of the next round. */
  function Kept(a: Answer, ms: seq<Message>): (kept: seq<Message>) {
    if ms == [] then []
    else Kept(a, ms[..|ms| - 1]) + if Keeps(a, |ms| - 1) then [ms[|ms| - 1]] else []
  }

  ghost function Accepted(a: Answer, ms: seq<Message>): set<Message> {
    set i | 0 <= i < |ms| && Accepts(a, i) :: ms[i]
  }

  ghost predicate Known(ms: seq<Message>, st: Statuses) {
    forall m <- ms :: m.uuid in st
  }

  function Noted(a: Answer, ms: seq<Message>, st: Statuses): (st': Statuses)
    ensures st'.Keys == st.Keys && forall u <- st.Keys :: st'[u].event == st[u].event
  {
    if ms == [] then st
    else
      var st' := Noted(a, ms[..|ms| - 1], st);
      var u := ms[|ms| - 1].uuid;
      if u in st' then st'[u := st'[u].(error := ErrorAfter(a, |ms| - 1, st'[u].error))] else st'
  }

  // ---- The rounds ----

  /** The messages of the n-th round. */
  function Sent(broker: Broker, ms: seq<Message>, n: nat): seq<Message> {
    if n == 0 then ms
    else
      var before := Sent(broker, ms, n - 1);
      Kept(broker(n - 1, before), before)
  }

  /** The statuses after n rounds. */
  function StatusAfter(broker: Broker, ms: seq<Message>, st: Statuses, n: nat): (st': Statuses)
    ensures st'.Keys == st.Keys && forall u <- st.Keys :: st'[u].event == st[u].event
  {
    if n == 0 then st
    else
      var sent := Sent(broker, ms, n - 1);
      Noted(broker(n - 1, sent), sent, StatusAfter(broker, ms, st, n - 1))
  }

  ghost predicate EverAccepted(broker: Broker, ms: seq<Message>, n: nat, m: Message) {
    exists k: nat :: k < n && m in Accepted(broker(k, Sent(broker, ms, k)), Sent(broker, ms, k))
  }

  ghost predicate Distinct(ms: seq<Message>) {
    forall i, j :: 0 <= i < j < |ms| ==> ms[i].position != ms[j].position
  }

  ghost predicate DistinctUuids(ms: seq<Message>) {
    forall i, j :: 0 <= i < j < |ms| ==> ms[i].uuid != ms[j].uuid
  }

  lemma OneMore(a: Answer, ms: seq<Message>, i: nat, st: Statuses)
    requires i < |ms|
    ensures Kept(a, ms[..i + 1]) == Kept(a, ms[..i]) + if Keeps(a, i) then [ms[i]] else []
    ensures Known(ms, st) ==>
              && Known(ms[..i], st) && Known(ms[..i + 1], st)
              && var st' := Noted(a, ms[..i], st);
                 Noted(a, ms[..i + 1], st)
                   == st'[ms[i].uuid := st'[ms[i].uuid].(error := ErrorAfter(a, i, st'[ms[i].uuid].error))]
  {
    assert ms[..i + 1][..i] == ms[..i];
  }

  lemma KeptNext(a: Answer, front: seq<Message>, last: Message)
    ensures Kept(a, front + [last]) == Kept(a, front) + if Keeps(a, |front|) then [last] else []
  {
    assert (front + [last])[..|front|] == front;
  }

  lemma {:induction false} KeptIn(a: Answer, ms: seq<Message>, m: Message)
    requires m in Kept(a, ms)
    ensures m in ms
  {
    hide Keeps;
    var front, last := ms[..|ms| - 1], ms[|ms| - 1];
    if m in Kept(a, front) {
      KeptIn(a, front, m);
      hide Kept;
      assert m in front;
    }
  }

  lemma {:induction false} KeptNone(a: Answer, ms: seq<Message>)
    requires forall i: nat :: i < |ms| ==> !Keeps(a, i)
    ensures Kept(a, ms) == []
  {
    hide Keeps;
    if ms != [] {
      KeptNone(a, ms[..|ms| - 1]);
    }
  }

  lemma {:induction false} KeptAll(a: Answer, ms: seq<Message>)
    requires forall i: nat :: i < |ms| ==> Keeps(a, i)
    ensures Kept(a, ms) == ms
  {
    hide Keeps;
    if ms != [] {
      var front, last := ms[..|ms| - 1], ms[|ms| - 1];
      KeptAll(a, front);
      assert ms == front + [last];
      KeptNext(a, front, last);
      hide Kept;
    }
  }

  lemma KeptFrom(a: Answer, ms: seq<Message>)
    ensures forall m <- Kept(a, ms) :: m in ms
    ensures (forall i: nat :: i < |ms| ==> !Keeps(a, i)) ==> Kept(a, ms) == []
    ensures (forall i: nat :: i < |ms| ==> Keeps(a, i)) ==> Kept(a, ms) == ms
  {
    hide Kept, Keeps;
    forall m <- Kept(a, ms) ensures m in ms {
      KeptIn(a, ms, m);
    }
    if forall i: nat :: i < |ms| ==> !Keeps(a, i) {
      KeptNone(a, ms);
    }
    if forall i: nat :: i < |ms| ==> Keeps(a, i) {
      KeptAll(a, ms);
    }
  }

  lemma {:induction false} KeptDistinct(a: Answer, ms: seq<Message>)
    requires Distinct(ms)
    ensures Distinct(Kept(a, ms))
  {
    hide Keeps;
    if ms != [] {
      var front, last := ms[..|ms| - 1], ms[|ms| - 1];
      KeptDistinct(a, front);
      KeptFrom(a, front);
      forall m <- Kept(a, front) ensures m.position != last.position {
        var i :| 0 <= i < |front| && front[i] == m;
        assert ms[i] == m;
      }
    }
  }

  lemma {:induction false} KeptDistinctUuids(a: Answer, ms: seq<Message>)
    requires DistinctUuids(ms)
    ensures DistinctUuids(Kept(a, ms))
  {
    hide Keeps;
    if ms != [] {
      var front, last := ms[..|ms| - 1], ms[|ms| - 1];
      KeptDistinctUuids(a, front);
      KeptFrom(a, front);
      forall m <- Kept(a, front) ensures m.uuid != last.uuid {
        var i :| 0 <= i < |front| && front[i] == m;
        assert ms[i] == m;
      }
    }
  }

  lemma NotKeptTwice(a: Answer, front: seq<Message>, m: Message)
    requires forall i :: 0 <= i < |front| ==> front[i].position != m.position
    ensures m !in Kept(a, front)
  {
    hide Kept;
    KeptFrom(a, front);
    forall x <- Kept(a, front) ensures x != m {
      var i :| 0 <= i < |front| && front[i] == x;
    }
  }

  /** Exactly the retriable messages are kept. */
  lemma {:induction false} KeptIff(a: Answer, ms: seq<Message>, i: nat)
    requires Distinct(ms) && i < |ms|
    ensures ms[i] in Kept(a, ms) <==> Keeps(a, i)
  {
    hide Keeps;
    var front := ms[..|ms| - 1];
    if i < |front| {
      KeptIff(a, front, i);
      assert front[i] == ms[i] && ms[i].position != ms[|front|].position;
    } else {
      NotKeptTwice(a, front, ms[i]);
    }
  }

  lemma {:induction false} SentFromBatch(broker: Broker, ms: seq<Message>, n: nat)
    requires Distinct(ms)
    ensures Distinct(Sent(broker, ms, n)) && (DistinctUuids(ms) ==> DistinctUuids(Sent(broker, ms, n)))
    ensures forall m <- Sent(broker, ms, n) :: m in ms
  {
    if n > 0 {
      SentFromBatch(broker, ms, n - 1);
      var before := Sent(broker, ms, n - 1);
      KeptFrom(broker(n - 1, before), before);
      KeptDistinct(broker(n - 1, before), before);
      if DistinctUuids(ms) { KeptDistinctUuids(broker(n - 1, before), before); }
    }
  }

  lemma AcceptedIsGone(a: Answer, ms: seq<Message>)
    requires Distinct(ms)
    ensures forall m <- Accepted(a, ms) :: m !in Kept(a, ms)
  {
    hide Kept;
    forall i: nat | i < |ms| && Accepts(a, i) ensures ms[i] !in Kept(a, ms) {
      KeptIff(a, ms, i);
    }
  }

  /** A message that the broker accepted in some round is in none of the later ones. */
  lemma {:induction false} NeverResent(broker: Broker, ms: seq<Message>, k: nat, n: nat)
    requires Distinct(ms) && k < n
    ensures forall m <- Sent(broker, ms, n) :: m in Sent(broker, ms, k)
    ensures forall m <- Accepted(broker(k, Sent(broker, ms, k)), Sent(broker, ms, k)) :: m !in Sent(broker, ms, n)
  {
    hide Kept, Distinct, Accepted;
    var before := Sent(broker, ms, n - 1);
    SentFromBatch(broker, ms, n - 1);
    KeptFrom(broker(n - 1, before), before);
    if k < n - 1 {
      NeverResent(broker, ms, k, n - 1);
    } else {
      AcceptedIsGone(broker(k, before), before);
    }
  }

  lemma {:induction false} NotedElsewhere(a: Answer, ms: seq<Message>, st: Statuses, u: nat)
    requires u in st && forall m <- ms :: m.uuid != u
    ensures Noted(a, ms, st)[u] == st[u]
  {
    if ms != [] {
      NotedElsewhere(a, ms[..|ms| - 1], st, u);
    }
  }

  /** With distinct uuids, a message's event is noted by its own answer only. */
  lemma {:induction false} NotedAt(a: Answer, ms: seq<Message>, st: Statuses, i: nat)
    requires Known(ms, st) && DistinctUuids(ms) && i < |ms|
    ensures Noted(a, ms, st)[ms[i].uuid].error == ErrorAfter(a, i, st[ms[i].uuid].error)
  {
    var front := ms[..|ms| - 1];
    if i < |front| {
      NotedAt(a, front, st, i);
    } else {
      NotedElsewhere(a, front, st, ms[i].uuid);
    }
  }

  // ---- From one round to the next, by the broker's answer ----

  /** Positions in increasing order. */
  ghost predicate Climbing(order: seq<nat>) {
    forall j, k :: 0 <= j < k < |order| ==> order[j] < order[k]
  }

  /** The positions of the messages that are kept, in their order. */
  lemma {:induction false} KeptAt(a: Answer, ms: seq<Message>) returns (order: seq<nat>)
    ensures Climbing(order) && |order| == |Kept(a, ms)|
    ensures forall j :: 0 <= j < |order| ==> order[j] < |ms| && Kept(a, ms)[j] == ms[order[j]]
    ensures forall i: nat :: i in order <==> i < |ms| && Keeps(a, i)
  {
    hide Keeps;
    if ms == [] {
      order := [];
    } else {
      var n := |ms| - 1;
      order := KeptAt(a, ms[..n]);
      if Keeps(a, n) {
        order := order + [n];
      }
    }
  }

  lemma {:induction false} KeptTooLarge(ms: seq<Message>, k: nat, n: nat)
    requires k < |ms| && n <= |ms|
    ensures Kept(OneTooLarge(k), ms[..n]) == if n <= k then ms[..n] else ms[..k] + ms[k + 1..n]
  {
    if n > 0 {
      KeptTooLarge(ms, k, n - 1);
      assert ms[..n][..n - 1] == ms[..n - 1];
    }
  }

  lemma KeptByAnswer(a: Answer, sent: seq<Message>) returns (order: seq<nat>)
    requires sent != [] && a.OneTooLarge? ==> a.i < |sent|
    ensures a.AllWritten? || a.Other? ==> Kept(a, sent) == []
    ensures a.Kafka? ==> Kept(a, sent) == if a.temporary then sent else []
    ensures a.OneTooLarge? ==> Kept(a, sent) == if sent == [] then [] else sent[..a.i] + sent[a.i + 1..]
    ensures a.Each? ==>
              && Climbing(order) && |Kept(a, sent)| == |order|
              && (forall j :: 0 <= j < |order| ==> order[j] < |sent| && Kept(a, sent)[j] == sent[order[j]])
              && forall i: nat :: i < |sent| ==>
                   (i in order <==>
                      a.errors(i) == Some(Temporary) || a.errors(i) == Some(Timeout)
                      || a.errors(i) == Some(UnexpectedEof))
  {
    KeptFrom(a, sent);
    order := KeptAt(a, sent);
    hide Kept, Climbing;
    if a.OneTooLarge? && sent != [] {
      KeptTooLarge(sent, a.i, |sent|);
      assert sent[..|sent|] == sent;
    }
  }

  /** What is sent in the next round: nothing after a success or an unknown error; everything again after a temporary
      Kafka error, nothing after another one; everything but the message that is too large; or, after an answer for
      each message, those with a temporary error, a timeout or an unexpected end of file, in their order. */
  lemma NextRound(broker: Broker, ms: seq<Message>, n: nat) returns (order: seq<nat>)
    requires Sound(broker)
    ensures var sent, next := Sent(broker, ms, n), Sent(broker, ms, n + 1);
            match broker(n, sent)
            case AllWritten => next == []
            case Other => next == []
            case Kafka(temporary) => next == if temporary then sent else []
            case OneTooLarge(k) => if sent == [] then next == [] else k < |sent| && next == sent[..k] + sent[k + 1..]
            case Each(errors) => Climbing(order) && |next| == |order|
    ensures var sent, next := Sent(broker, ms, n), Sent(broker, ms, n + 1);
            var a := broker(n, sent);
            a.Each? ==>
              && (forall j :: 0 <= j < |order| ==> order[j] < |sent| && next[j] == sent[order[j]])
              && forall i: nat :: i < |sent| ==>
                   (i in order <==>
                      a.errors(i) == Some(Temporary) || a.errors(i) == Some(Timeout)
                      || a.errors(i) == Some(UnexpectedEof))
  {
    SentNext(broker, ms, n);
    hide Sent;
    order := KeptByAnswer(broker(n, Sent(broker, ms, n)), Sent(broker, ms, n));
  }

  /** What the round says about the events: the message's own answer, the answer for all, or nothing new for the
      messages that come with one that is too large; and nothing about the events of messages that were not sent. */
  lemma NextErrors(broker: Broker, ms: seq<Message>, st: Statuses, n: nat, m: Message)
    requires Distinct(ms) && DistinctUuids(ms) && Known(ms, st) && m in ms
    ensures var sent, before, after := Sent(broker, ms, n), StatusAfter(broker, ms, st, n)[m.uuid].error,
            StatusAfter(broker, ms, st, n + 1)[m.uuid].error;
            && (m !in sent ==> after == before)
            && forall i: nat :: i < |sent| && sent[i] == m ==>
                 var a := broker(n, sent);
                 && (a.AllWritten? ==> after == None)
                 && (a.Each? ==> after == a.errors(i))
                 && (a.OneTooLarge? ==> after == if i == a.i then Some(TooLarge) else before)
                 && (a.Kafka? ==> after == Some(if a.temporary then Temporary else Permanent))
                 && (a.Other? ==> after == Some(Permanent))
  {
    var sent := Sent(broker, ms, n);
    var a := broker(n, sent);
    SentFromBatch(broker, ms, n);
    var st' := StatusAfter(broker, ms, st, n);
    assert StatusAfter(broker, ms, st, n + 1) == Noted(a, sent, st');
    hide Sent, StatusAfter, Noted;
    if m !in sent {
      UuidElsewhere(ms, sent, m);
      NotedElsewhere(a, sent, st', m.uuid);
    }
    forall i: nat | i < |sent| && sent[i] == m
      ensures Noted(a, sent, st')[m.uuid].error == ErrorAfter(a, i, st'[m.uuid].error)
    {
      NotedAt(a, sent, st', i);
    }
  }

  /** After n rounds: a message still to be sent has an error and was not accepted; any other one has none exactly
      when it was accepted. */
  ghost predicate Told(broker: Broker, ms: seq<Message>, n: nat, st: Statuses)
    requires Known(ms, st)
  {
    forall m <- ms ::
      && (m in Sent(broker, ms, n) ==> st[m.uuid].error.Some? && !EverAccepted(broker, ms, n, m))
      && (st[m.uuid].error.None? <==> EverAccepted(broker, ms, n, m))
  }

  /** What `write` reports: started with nothing delivered, after any number of rounds an event's error is nil
      exactly when the broker reported its message as accepted. */
  lemma {:induction false} ErrorNilIffAccepted(broker: Broker, ms: seq<Message>, st: Statuses, n: nat)
    requires Distinct(ms) && DistinctUuids(ms) && Known(ms, st) && Sound(broker)
    requires forall m <- ms :: st[m.uuid].error.Some?
    ensures Told(broker, ms, n, StatusAfter(broker, ms, st, n))
  {
    hide Noted;
    if n > 0 {
      ErrorNilIffAccepted(broker, ms, st, n - 1);
      SentFromBatch(broker, ms, n - 1);
      ToldNext(broker, ms, n - 1, StatusAfter(broker, ms, st, n - 1));
    }
  }

  lemma AcceptedNext(broker: Broker, ms: seq<Message>, n: nat, m: Message)
    ensures EverAccepted(broker, ms, n + 1, m) <==>
              EverAccepted(broker, ms, n, m) || m in Accepted(broker(n, Sent(broker, ms, n)), Sent(broker, ms, n))
  {
  }

  lemma ToldNext(broker: Broker, ms: seq<Message>, n: nat, st: Statuses)
    requires Distinct(ms) && DistinctUuids(ms) && Known(ms, st) && Told(broker, ms, n, st) && Sound(broker)
    requires Known(Sent(broker, ms, n), st)
    ensures Told(broker, ms, n + 1, Noted(broker(n, Sent(broker, ms, n)), Sent(broker, ms, n), st))
  {
    hide EverAccepted, Kept, Noted, Sent;
    var sent := Sent(broker, ms, n);
    var a := broker(n, sent);
    SentFromBatch(broker, ms, n);
    SentNext(broker, ms, n);
    KeptFrom(a, sent);
    var st' := Noted(a, sent, st);
    forall m <- ms
      ensures m in Sent(broker, ms, n + 1) ==> st'[m.uuid].error.Some? && !EverAccepted(broker, ms, n + 1, m)
      ensures st'[m.uuid].error.None? <==> EverAccepted(broker, ms, n + 1, m)
    {
      AcceptedNext(broker, ms, n, m);
      if m in sent {
        var i :| 0 <= i < |sent| && sent[i] == m;
        NotedAt(a, sent, st, i);
        KeptIff(a, sent, i);
        OneOf(a, sent, i);
      } else {
        UuidElsewhere(ms, sent, m);
        NotedElsewhere(a, sent, st, m.uuid);
      }
    }
  }

  lemma SentNext(broker: Broker, ms: seq<Message>, n: nat)
    ensures Sent(broker, ms, n + 1) == Kept(broker(n, Sent(broker, ms, n)), Sent(broker, ms, n))
  {
  }

  lemma OneOf(a: Answer, sent: seq<Message>, i: nat)
    requires i < |sent| && Distinct(sent)
    ensures sent[i] in Accepted(a, sent) <==> Accepts(a, i)
  {
  }

  lemma UuidElsewhere(ms: seq<Message>, sent: seq<Message>, m: Message)
    requires DistinctUuids(ms) && m in ms && m !in sent && forall x <- sent :: x in ms
    ensures forall x <- sent :: x.uuid != m.uuid
  {
    forall x <- sent ensures x.uuid != m.uuid {
      var i :| 0 <= i < |ms| && ms[i] == m;
      var j :| 0 <= j < |ms| && ms[j] == x;
      assert i != j;
    }
  }

  // ---- The write loop ----

  /** The variables that `write` shares with the function it retries. */
  class Writing {
    var messages: seq<Message>
    var eventsStatus: Statuses

    constructor (messages: seq<Message>, eventsStatus: Statuses)
      ensures this.messages == messages && this.eventsStatus == eventsStatus
    {
      this.messages := messages;
      this.eventsStatus := eventsStatus;
    }

    /** A per-message answer: the retriable messages stay. */
    method OnWriteErrors(ghost a: Answer, errors: nat -> Option<Error>)
      requires a == Each(errors) && Known(messages, eventsStatus)
      modifies this
      ensures messages == Kept(a, old(messages)) && eventsStatus == Noted(a, old(messages), old(eventsStatus))
    {
      hide Kept, Noted;
      var retriable: seq<Message> := [];
      NoneYet(a, messages, eventsStatus);
      for i := 0 to |messages|
        invariant messages == old(messages) && Known(messages, eventsStatus)
                  && eventsStatus.Keys == old(eventsStatus.Keys)
        invariant retriable == Kept(a, messages[..i])
        invariant eventsStatus == Noted(a, messages[..i], old(eventsStatus))
      {
        var m := messages[i];
        OneMore(a, messages, i, old(eventsStatus));
        match errors(i) {
          case None =>
            eventsStatus := eventsStatus[m.uuid := eventsStatus[m.uuid].(error := None)];
          case Some(e) =>
            if e.Temporary? || e.Timeout? || e.UnexpectedEof? {
              retriable := retriable + [m];
            }
            eventsStatus := eventsStatus[m.uuid := eventsStatus[m.uuid].(error := Some(e))];
        }
      }
      assert messages[..|messages|] == messages;
      messages := retriable;
    }

    /** The same error, or none, for all messages. */
    method OnAll(ghost a: Answer, error: Option<Error>)
      requires Known(messages, eventsStatus) && !a.Each? && !a.OneTooLarge?
      requires forall i: nat, before :: ErrorAfter(a, i, before) == error
      modifies this`eventsStatus
      ensures eventsStatus == Noted(a, messages, old(eventsStatus))
    {
      hide Noted;
      NoneYet(a, messages, eventsStatus);
      for i := 0 to |messages|
        invariant Known(messages, eventsStatus) && eventsStatus.Keys == old(eventsStatus.Keys)
        invariant eventsStatus == Noted(a, messages[..i], old(eventsStatus))
      {
        var u := messages[i].uuid;
        OneMore(a, messages, i, old(eventsStatus));
        eventsStatus := eventsStatus[u := eventsStatus[u].(error := error)];
      }
      assert messages[..|messages|] == messages;
    }

    /** One message is given up, the others are sent again. */
    method OnTooLarge(ghost a: Answer, k: nat)
      requires a == OneTooLarge(k) && k < |messages| && Known(messages, eventsStatus)
      modifies this
      ensures messages == Kept(a, old(messages)) && eventsStatus == Noted(a, old(messages), old(eventsStatus))
    {
      TooLargeNoted(messages, k, eventsStatus, |messages|);
      assert messages[..|messages|] == messages;
      var u := messages[k].uuid;
      eventsStatus := eventsStatus[u := eventsStatus[u].(error := Some(TooLarge))];
      messages := messages[..k] + messages[k + 1..];
    }

    /** The function that is retried; it tells whether it wants to be. */
    method Try(broker: Broker, n: nat) returns (failed: bool)
      requires Known(messages, eventsStatus) && Sound(broker)
      modifies this
      ensures eventsStatus == Noted(broker(n, old(messages)), old(messages), old(eventsStatus))
      ensures if failed then old(messages) != [] && messages == Kept(broker(n, old(messages)), old(messages))
              else Kept(broker(n, old(messages)), old(messages)) == []
    {
      hide Noted, Kept;
      var a := broker(n, messages);
      KeptFrom(a, messages);
      if messages == [] {
        NoneYet(a, [], eventsStatus);
        return false;
      }
      match a
      case AllWritten =>
        OnAll(a, None);
        failed := false;
      case Each(errors) =>
        OnWriteErrors(a, errors);
        failed := true;
      case OneTooLarge(k) =>
        OnTooLarge(a, k);
        failed := true;
      case Kafka(temporary) =>
        OnAll(a, Some(if temporary then Temporary else Permanent));
        failed := temporary;
      case Other =>
        OnAll(a, Some(Permanent));
        failed := false;
    }

    /** Retryer.Do, for as long as `horizon` tries: with no positive number of attempts it may go on for ever. It
        finishes when no message is left to be sent again, or after that number of attempts. */
    method Do(retryAttempts: int, broker: Broker, horizon: nat) returns (finished: bool, n: nat)
      requires Known(messages, eventsStatus) && Sound(broker)
      modifies this
      ensures n <= horizon && eventsStatus == StatusAfter(broker, old(messages), old(eventsStatus), n)
      ensures retryAttempts > 0 ==> n <= retryAttempts && (horizon >= retryAttempts ==> finished)
      ensures finished ==> Sent(broker, old(messages), n) == [] || n == retryAttempts
      ensures !finished ==> n == horizon && (n > 0 ==> Sent(broker, old(messages), n - 1) != [])
    {
      hide Noted, Kept;
      var attempts := 1;
      n := 0;
      while n < horizon
        invariant n <= horizon && messages == Sent(broker, old(messages), n) && Known(messages, eventsStatus)
        invariant eventsStatus == StatusAfter(broker, old(messages), old(eventsStatus), n)
        invariant retryAttempts > 0 ==> attempts == n + 1 <= retryAttempts
        invariant n > 0 ==> Sent(broker, old(messages), n - 1) != []
      {
        KeptFrom(broker(n, messages), messages);
        var failed := Try(broker, n);
        n := n + 1;
        if !failed {
          return true, n;
        }
        if retryAttempts > 0 && attempts < retryAttempts {
          attempts := attempts + 1;
        } else if retryAttempts > 0 {
          return true, n;
        }
      }
      finished := false;
    }
  }

  lemma NoneYet(a: Answer, ms: seq<Message>, st: Statuses)
    ensures Noted(a, [], st) == st == Noted(a, ms[..0], st) && Kept(a, ms[..0]) == []
  {
  }

  lemma {:induction false} TooLargeNoted(ms: seq<Message>, k: nat, st: Statuses, n: nat)
    requires k < |ms| && n <= |ms| && Known(ms, st)
    ensures Kept(OneTooLarge(k), ms[..n]) == if n <= k then ms[..n] else ms[..k] + ms[k + 1..n]
    ensures Noted(OneTooLarge(k), ms[..n], st)
         == if n <= k then st else st[ms[k].uuid := st[ms[k].uuid].(error := Some(TooLarge))]
  {
    hide Kept, Noted;
    NoneYet(OneTooLarge(k), ms, st);
    KeptTooLarge(ms, k, n);
    if n > 0 {
      TooLargeNoted(ms, k, st, n - 1);
      OneMore(OneTooLarge(k), ms, n - 1, st);
    }
  }

  // ---- The flush of a batch ----

  function Skipped(buf: seq<Event>): seq<Event> {
    if buf == [] then []
    else
      var front, e := buf[..|buf| - 1], buf[|buf| - 1];
      if e.serializable then Skipped(front) else Skipped(front) + [e]
  }

  function Ready(buf: seq<Event>): seq<Event> {
    if buf == [] then []
    else
      var front, e := buf[..|buf| - 1], buf[|buf| - 1];
      if e.serializable then Ready(front) + [e] else Ready(front)
  }

  function Messages(buf: seq<Event>): (ms: seq<Message>)
    ensures |ms| == |Ready(buf)|
  {
    if buf == [] then []
    else
      var n := |buf| - 1;
      if buf[n].serializable then Messages(buf[..n]) + [Message(n, buf[n].uuid)] else Messages(buf[..n])
  }

  /** The status map, in which of several events with one uuid the last one stays. */
  function Undelivered(buf: seq<Event>): Statuses {
    if buf == [] then map[]
    else
      var st, e := Undelivered(buf[..|buf| - 1]), buf[|buf| - 1];
      if e.serializable then st[e.uuid := Status(e, Some(NotDelivered))] else st
  }

  function Values(st: Statuses, order: seq<nat>): (events: seq<Event>)
    requires forall u <- order :: u in st
  {
    seq(|order|, i requires 0 <= i < |order| => st[order[i]].event)
  }

  /** An iteration over the map: each key once. */
  ghost predicate Order(st: Statuses, order: seq<nat>) {
    && (forall u :: u in order <==> u in st)
    && forall i, j :: 0 <= i < j < |order| ==> order[i] != order[j]
  }

  /** One batch. What `finished` means is told at `Do`; until then only what could not be serialized is done. */
  method Flush(buf: seq<Event>, retryAttempts: int, broker: Broker, horizon: nat)
    returns (done: seq<Event>, finished: bool, n: nat, eventsStat: Statuses, ghost order: seq<nat>)
    requires Sound(broker)
    ensures eventsStat == StatusAfter(broker, Messages(buf), Undelivered(buf), n)
    ensures !finished ==> done == Skipped(buf) && n == horizon
    ensures finished ==> Sent(broker, Messages(buf), n) == [] || n == retryAttempts
    ensures finished ==> Order(Undelivered(buf), order) && done == Skipped(buf) + Values(Undelivered(buf), order)
    ensures retryAttempts > 0 ==> n <= retryAttempts && (horizon >= retryAttempts ==> finished)
  {
    var messages: seq<Message> := [];
    var readyEvents: Statuses := map[];
    done, order, n := [], [], 0;
    for i := 0 to |buf|
      invariant done == Skipped(buf[..i]) && messages == Messages(buf[..i]) && readyEvents == Undelivered(buf[..i])
    {
      var e := buf[i];
      assert buf[..i + 1][..i] == buf[..i];
      if !e.serializable {
        done := done + [e];
      } else {
        messages := messages + [Message(i, e.uuid)];
        readyEvents := readyEvents[e.uuid := Status(e, Some(NotDelivered))];
      }
    }
    assert buf[..|buf|] == buf;
    MessagesKnown(buf);
    if readyEvents.Keys == {} {
      return done, true, 0, readyEvents, [];
    }
    var w := new Writing(messages, readyEvents);
    finished, n := w.Do(retryAttempts, broker, horizon);
    eventsStat := w.eventsStatus;
    if finished {
      var events;
      events, order := DoneAll(eventsStat);
      assert events == Values(Undelivered(buf), order);
      done := done + events;
    }
  }

  method DoneAll(eventsStat: Statuses) returns (done: seq<Event>, ghost order: seq<nat>)
    ensures Order(eventsStat, order) && done == Values(eventsStat, order)
  {
    var todo := eventsStat.Keys;
    done, order := [], [];
    while todo != {}
      invariant todo <= eventsStat.Keys
      invariant forall u :: u in order <==> u in eventsStat.Keys - todo
      invariant forall i, j :: 0 <= i < j < |order| ==> order[i] != order[j]
      invariant done == Values(eventsStat, order)
      decreases todo
    {
      var u :| u in todo;
      done := done + [eventsStat[u].event];
      assert u !in order;
      order := order + [u];
      todo := todo - {u};
    }
  }

  ghost predicate UuidsDiffer(events: seq<Event>) {
    forall i, j :: 0 <= i < j < |events| ==> events[i].uuid != events[j].uuid
  }

  lemma {:induction false} MessagesKnown(buf: seq<Event>)
    ensures Known(Messages(buf), Undelivered(buf))
    ensures forall u <- Undelivered(buf) :: Undelivered(buf)[u].error.Some?
    ensures Messages(buf) == [] <==> Undelivered(buf) == map[]
  {
    if buf != [] {
      MessagesKnown(buf[..|buf| - 1]);
    }
  }

  lemma {:induction false} MessagesDistinct(buf: seq<Event>)
    ensures Distinct(Messages(buf)) && forall m <- Messages(buf) :: m.position < |buf|
    ensures forall i :: 0 <= i < |Messages(buf)| ==> Messages(buf)[i].uuid == Ready(buf)[i].uuid
  {
    if buf != [] {
      MessagesDistinct(buf[..|buf| - 1]);
    }
  }

  function Uuids(events: seq<Event>): set<nat> {
    set e <- events :: e.uuid
  }

  lemma UuidsAppend(events: seq<Event>, e: Event)
    ensures Uuids(events + [e]) == Uuids(events) + {e.uuid}
  {
    forall u | u in Uuids(events) + {e.uuid} ensures u in Uuids(events + [e]) {
      var x :| x in events + [e] && x.uuid == u;
    }
  }

  lemma {:induction false} StatusKeys(buf: seq<Event>)
    ensures Undelivered(buf).Keys == Uuids(Ready(buf))
  {
    hide Uuids;
    NoUuids();
    if buf != [] {
      var front, e := buf[..|buf| - 1], buf[|buf| - 1];
      StatusKeys(front);
      UuidsAppend(Ready(front), e);
    }
  }

  lemma LastDiffers(events: seq<Event>, e: Event)
    requires UuidsDiffer(events + [e])
    ensures UuidsDiffer(events) && forall x <- events :: x.uuid != e.uuid
  {
    var all := events + [e];
    assert forall i :: 0 <= i < |events| ==> all[i] == events[i];
    assert all[|events|] == e;
  }

  lemma {:induction false} StatusOf(buf: seq<Event>)
    ensures forall u <- Undelivered(buf) ::
              Undelivered(buf)[u].event in Ready(buf) && Undelivered(buf)[u].event.uuid == u
    ensures UuidsDiffer(Ready(buf)) ==>
              forall e <- Ready(buf) :: e.uuid in Undelivered(buf) && Undelivered(buf)[e.uuid].event == e
  {
    if buf != [] {
      var front, e := buf[..|buf| - 1], buf[|buf| - 1];
      StatusOf(front);
      if e.serializable && UuidsDiffer(Ready(buf)) {
        LastDiffers(Ready(front), e);
      }
    }
  }

  lemma NoUuids()
    ensures Uuids([]) == {}
  {
  }

  /** The serializable events of a batch, told without building their list. */
  ghost predicate SerializedDiffer(buf: seq<Event>) {
    forall i, j :: 0 <= i < j < |buf| && buf[i].serializable && buf[j].serializable ==> buf[i].uuid != buf[j].uuid
  }

  lemma {:induction false} ReadyIff(buf: seq<Event>)
    ensures forall e: Event :: e in Ready(buf) <==> e in buf && e.serializable
    ensures forall e: Event :: e in Skipped(buf) <==> e in buf && !e.serializable
    ensures UuidsDiffer(Ready(buf)) <==> SerializedDiffer(buf)
  {
    if buf != [] {
      var front, e := buf[..|buf| - 1], buf[|buf| - 1];
      ReadyIff(front);
      assert buf == front + [e];
      DifferNext(front, e);
      DifferAppend(Ready(front), e);
    }
  }

  lemma DifferNext(front: seq<Event>, e: Event)
    ensures SerializedDiffer(front + [e])
       <==> SerializedDiffer(front) && (e.serializable ==> forall x <- front :: x.serializable ==> x.uuid != e.uuid)
  {
    var buf := front + [e];
    assert forall i :: 0 <= i < |front| ==> buf[i] == front[i];
    if SerializedDiffer(buf) && e.serializable {
      forall x <- front | x.serializable ensures x.uuid != e.uuid {
        var i :| 0 <= i < |front| && front[i] == x;
        assert buf[i] == x && buf[|front|] == e;
      }
    }
  }

  lemma DifferAppend(events: seq<Event>, e: Event)
    ensures UuidsDiffer(events + [e]) <==> UuidsDiffer(events) && forall x <- events :: x.uuid != e.uuid
  {
    var all := events + [e];
    assert forall i :: 0 <= i < |events| ==> all[i] == events[i];
    if UuidsDiffer(all) {
      LastDiffers(events, e);
    }
  }

  /** Exactly the serializable events have a message, which knows their place and uuid. */
  lemma {:induction false} MessageIff(buf: seq<Event>, i: nat)
    requires i < |buf|
    ensures buf[i].serializable ==> Message(i, buf[i].uuid) in Messages(buf)
    ensures !buf[i].serializable ==> forall m <- Messages(buf) :: m.position != i
  {
    var n := |buf| - 1;
    if i < n {
      MessageIff(buf[..n], i);
    } else {
      MessagesDistinct(buf[..n]);
    }
  }

  /** What the flush reports, when the uuids of the serializable events differ: each of these has a message, and its
      event's error is nil exactly when the broker reported that message as accepted in one of the rounds. Of an event
      that is not serializable nothing is sent. */
  lemma FlushReport(buf: seq<Event>, broker: Broker, n: nat, i: nat)
    requires Sound(broker) && SerializedDiffer(buf) && i < |buf|
    ensures var ms, st, e := Messages(buf), StatusAfter(broker, Messages(buf), Undelivered(buf), n), buf[i];
            if e.serializable then
              && Message(i, e.uuid) in ms
              && e.uuid in st && st[e.uuid].event == e
              && (st[e.uuid].error.None? <==> EverAccepted(broker, ms, n, Message(i, e.uuid)))
            else forall m <- ms :: m.position != i
  {
    MessageIff(buf, i);
    if buf[i].serializable {
      MessagesKnown(buf);
      MessagesDistinct(buf);
      StatusOf(buf);
      ReadyIff(buf);
      assert DistinctUuids(Messages(buf)) by {
        forall j, k | 0 <= j < k < |Messages(buf)| ensures Messages(buf)[j].uuid != Messages(buf)[k].uuid {
          assert Ready(buf)[j].uuid != Ready(buf)[k].uuid;
        }
      }
      assert buf[i] in Ready(buf);
      ErrorNilIffAccepted(broker, Messages(buf), Undelivered(buf), n);
    }
  }

  lemma {:induction false} SplitBatch(buf: seq<Event>)
    ensures multiset(buf) == multiset(Skipped(buf)) + multiset(Ready(buf))
  {
    if buf != [] {
      var front, e := buf[..|buf| - 1], buf[|buf| - 1];
      SplitBatch(front);
      assert buf == front + [e];
      AddOne(front, e, Skipped(front), Ready(front));
    }
  }

  lemma AddOne(front: seq<Event>, e: Event, a: seq<Event>, b: seq<Event>)
    requires multiset(front) == multiset(a) + multiset(b)
    ensures multiset(front + [e]) == multiset(a + [e]) + multiset(b) == multiset(a) + multiset(b + [e])
  {
  }

  lemma {:induction false} OnceInOrder(st: Statuses, order: seq<nat>, e: Event)
    requires forall u <- order :: u in st && st[u].event.uuid == u
    requires forall i, j :: 0 <= i < j < |order| ==> order[i] != order[j]
    ensures multiset(Values(st, order))[e] == if e.uuid in order && st[e.uuid].event == e then 1 else 0
  {
    if order != [] {
      var n := |order| - 1;
      OnceInOrder(st, order[..n], e);
      assert Values(st, order) == Values(st, order[..n]) + [st[order[n]].event];
      assert order == order[..n] + [order[n]];
    }
  }

  lemma Twice(events: seq<Event>, i: nat, j: nat)
    requires i < j < |events| && events[i] == events[j]
    ensures multiset(events)[events[i]] >= 2
  {
    assert events == events[..j] + [events[j]] + events[j + 1..];
    assert events[i] in events[..j];
  }

  lemma {:induction false} OnceIfDistinct(events: seq<Event>, e: Event)
    requires UuidsDiffer(events)
    ensures multiset(events)[e] == if e in events then 1 else 0
  {
    if events != [] {
      var front, last := events[..|events| - 1], events[|events| - 1];
      OnceIfDistinct(front, e);
      assert events == front + [last];
      assert forall i :: 0 <= i < |front| ==> front[i].uuid == events[i].uuid != last.uuid;
    }
  }

  /** The iteration over the statuses gives exactly the events that kept their entry. */
  ghost predicate EntryEvents(st: Statuses, values: seq<Event>) {
    forall e: Event :: multiset(values)[e] == if e.uuid in st && st[e.uuid].event == e then 1 else 0
  }

  /** Every event of the batch goes to `Done` exactly once if and only if the events that were serialized have
      different uuids: of several with one uuid only the last is ever done. */
  lemma DoneOnceIff(buf: seq<Event>, order: seq<nat>)
    requires Order(Undelivered(buf), order)
    ensures multiset(Skipped(buf) + Values(Undelivered(buf), order)) == multiset(buf) <==> SerializedDiffer(buf)
    ensures forall e <- Skipped(buf) :: !e.serializable
  {
    ReadyIff(buf);
    hide Undelivered, Ready, Skipped, Values, UuidsDiffer, SerializedDiffer;
    var st := Undelivered(buf);
    var values := Values(st, order);
    SplitBatch(buf);
    StatusOf(buf);
    forall e: Event
      ensures multiset(values)[e] == if e.uuid in st && st[e.uuid].event == e then 1 else 0
    {
      OnceInOrder(st, order, e);
    }
    assert multiset(Skipped(buf) + values) == multiset(Skipped(buf)) + multiset(values);
    if UuidsDiffer(Ready(buf)) {
      AllKept(buf, values);
    } else {
      SomeLost(buf, values);
      Cancel(multiset(Skipped(buf)), multiset(values), multiset(Ready(buf)));
    }
  }

  lemma Cancel(a: multiset<Event>, b: multiset<Event>, c: multiset<Event>)
    ensures a + b == a + c ==> b == c
  {
    if a + b == a + c {
      assert b == (a + b) - a && c == (a + c) - a;
    }
  }

  lemma AllKept(buf: seq<Event>, values: seq<Event>)
    requires EntryEvents(Undelivered(buf), values) && UuidsDiffer(Ready(buf))
    ensures multiset(values) == multiset(Ready(buf))
  {
    StatusOf(buf);
    forall e: Event ensures multiset(values)[e] == multiset(Ready(buf))[e] {
      OnceIfDistinct(Ready(buf), e);
    }
  }

  lemma SomeLost(buf: seq<Event>, values: seq<Event>)
    requires EntryEvents(Undelivered(buf), values) && !UuidsDiffer(Ready(buf))
    ensures multiset(values) != multiset(Ready(buf))
  {
    var ready := Ready(buf);
    if multiset(values) == multiset(ready) {
      var i: nat, j: nat :| i < j < |ready| && ready[i].uuid == ready[j].uuid;
      assert ready[i] in multiset(ready) && ready[j] in multiset(ready);
      Twice(ready, i, j);
      assert false;
    }
  }
}
