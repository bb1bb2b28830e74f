/** The commit controller of a Kafka topic (plugins/inputs/kafka/reader.go): per-partition ordered queues of
    fetched messages, a token semaphore shared with the readers, and the four cases of its select loop. */
module KafkaController {
  import opened Tokens

  /** `trackedMessage`: its offset, the events still to be delivered, and the delivered flag. */
  datatype Tracked = Tracked(offset: int, events: nat, delivered: bool)

  /** One call of `CommitOffsets`: the committed position and whether the broker accepted it. */
  datatype Commit = Commit(position: int, accepted: bool)

  type Queue = seq<Tracked>
  type Queues = map<nat, Queue>

  /** The queue of a partition; a partition without a queue has nothing in it. */
  function At(queues: Queues, p: nat): Queue {
    if p in queues then queues[p] else []
  }

  predicate HasOffset(q: Queue, offset: int) {
    exists i :: 0 <= i < |q| && q[i].offset == offset
  }

  ghost predicate UniqueOffsets(q: Queue) {
    forall i, j :: 0 <= i < j < |q| ==> q[i].offset != q[j].offset
  }

  /** A fetched message is appended unless its offset is already queued. */
  function Stored(queues: Queues, p: nat, m: Tracked): Queues {
    queues[p := if HasOffset(At(queues, p), m.offset) then At(queues, p) else At(queues, p) + [m]]
  }

  function Marked(m: Tracked): Tracked {
    if m.events <= 1 then Tracked(m.offset, 0, true) else m.(events := m.events - 1)
  }

  /** One event of the message with this offset was delivered. */
  function Signal(q: Queue, offset: int): Queue {
    seq(|q|, i requires 0 <= i < |q| => if q[i].offset == offset then Marked(q[i]) else q[i])
  }

  /** The length of the longest delivered prefix. */
  function Prefix(q: Queue): (n: nat)
    ensures n <= |q|
    ensures forall i :: 0 <= i < n ==> q[i].delivered
    ensures n < |q| ==> !q[n].delivered
  {
    if q == [] || !q[0].delivered then 0 else 1 + Prefix(q[1..])
  }

  function Trimmed(queues: Queues, p: nat): Queues {
    queues[p := At(queues, p)[Prefix(At(queues, p))..]]
  }

  /** What a commit phase commits for a queue: the end of its longest delivered prefix, if there is one. */
  function Committed(q: Queue, accepted: bool): seq<Commit> {
    if Prefix(q) == 0 then [] else [Commit(q[Prefix(q) - 1].offset + 1, accepted)]
  }

  /** The length of all queues of partitions below n. */
  function TotalLen(queues: Queues, n: nat): nat {
    if n == 0 then 0 else TotalLen(queues, n - 1) + |At(queues, n - 1)|
  }

  lemma {:induction false} TotalLenOfUpdate(queues: Queues, n: nat, p: nat, q: Queue)
    ensures TotalLen(queues[p := q], n) == TotalLen(queues, n) + (if p < n then |q| - |At(queues, p)| else 0)
  {
    if n > 0 {
      TotalLenOfUpdate(queues, n - 1, p, q);
    }
  }

  lemma {:induction false} TotalLenCovers(queues: Queues, n: nat, p: nat)
    requires p < n
    ensures |At(queues, p)| <= TotalLen(queues, n)
  {
    if p < n - 1 {
      TotalLenCovers(queues, n - 1, p);
    }
  }

  lemma {:induction false} TotalLenZero(queues: Queues, n: nat)
    ensures TotalLen(queues, n) == 0 <==> forall p :: 0 <= p < n ==> At(queues, p) == []
  {
    if n > 0 {
      TotalLenZero(queues, n - 1);
    }
  }

  /** The state of a commit phase over queues `qs` with commits `cs` so far, when the queues of `todo` are still
      to be visited: the visited ones have lost exactly their longest delivered prefix, and its end, if there
      was one, has been committed once. */
  ghost predicate Swept(qs: Queues, cs: seq<seq<Commit>>, accepted: nat -> bool, todo: set<nat>,
                        qs': Queues, cs': seq<seq<Commit>>)
  {
    && |cs'| == |cs| && qs'.Keys == qs.Keys
    && (forall p <- qs.Keys :: qs'[p] == if p in todo then qs[p] else qs[p][Prefix(qs[p])..])
    && (forall p :: 0 <= p < |cs| ==>
          cs'[p] == cs[p] + if p in todo then [] else Committed(At(qs, p), accepted(p)))
  }

  lemma SweptStep(qs: Queues, cs: seq<seq<Commit>>, accepted: nat -> bool, todo: set<nat>,
                  qs': Queues, cs': seq<seq<Commit>>, p: nat)
    requires Swept(qs, cs, accepted, todo, qs', cs') && p in todo && p in qs && p < |cs|
    ensures Swept(qs, cs, accepted, todo - {p}, Trimmed(qs', p),
                  cs'[p := cs'[p] + Committed(qs'[p], accepted(p))])
  {
  }

  /** After a commit phase every queue is empty or starts with a message that is not delivered yet, what is
      left of it is the end of what it was, and everything removed was delivered. */
  lemma SweptResult(qs: Queues, cs: seq<seq<Commit>>, accepted: nat -> bool, qs': Queues, cs': seq<seq<Commit>>, p: nat)
    requires Swept(qs, cs, accepted, {}, qs', cs') && p in qs
    ensures qs'[p] == [] || !qs'[p][0].delivered
    ensures exists n :: 0 <= n <= |qs[p]| && qs'[p] == qs[p][n..] && forall i :: 0 <= i < n ==> qs[p][i].delivered
  {
    var n := Prefix(qs[p]);
    assert qs'[p] == qs[p][n..];
  }

  class CommitController {
    var commitQueues: Queues
    const commitSemaphore: Semaphore
    var exitIfQueueEmpty: bool
    var readersCount: int
    var doneClosed: bool
    ghost var commits: seq<seq<Commit>>
    ghost const partitions: nat

    ghost predicate Valid()
      reads this, commitSemaphore
    {
      && (forall p <- commitQueues.Keys :: p < partitions && UniqueOffsets(commitQueues[p]))
      && |commits| == partitions
      && Spare() >= 0
    }

    /** The tokens held for messages that are not queued. */
    ghost function Spare(): int
      reads this, commitSemaphore
    {
      commitSemaphore.held - TotalLen(commitQueues, partitions)
    }

    constructor (semaphore: Semaphore, readers: nat, ghost partitions: nat)
      ensures Valid() && commitQueues == map[] && commitSemaphore == semaphore && this.partitions == partitions
      ensures readersCount == readers && !exitIfQueueEmpty && !doneClosed
      ensures commits == seq(partitions, _ => [])
    {
      commitSemaphore := semaphore;
      commitQueues := map[];
      readersCount := readers;
      exitIfQueueEmpty := false;
      doneClosed := false;
      commits := seq(partitions, _ => []);
      this.partitions := partitions;
      new;
      TotalLenZero(map[], partitions);
    }

    /** A new message was fetched. Its reader holds one token for it, which is kept while the message is
        queued and given back when the offset is a duplicate. */
    method OnFetched(p: nat, m: Tracked)
      requires Valid() && !doneClosed && p < partitions
      requires Spare() > 0
      modifies this`commitQueues, commitSemaphore
      ensures Valid()
      ensures commitQueues == Stored(old(commitQueues), p, m)
      ensures Spare() == old(Spare()) - 1
    {
      var q := [];
      if p in commitQueues {
        q := commitQueues[p];
      } else {
        commitQueues := commitQueues[p := q];
      }
      TotalLenOfUpdate(old(commitQueues), partitions, p, q);
      if HasOffset(q, m.offset) {
        commitSemaphore.Release();
      } else {
        TotalLenOfUpdate(commitQueues, partitions, p, q + [m]);
        commitQueues := commitQueues[p := q + [m]];
      }
      assert commitQueues == Stored(old(commitQueues), p, m);
    }

    /** An event of the message was delivered. A partition without a queue would be a nil dereference. */
    method OnDelivered(p: nat, offset: int)
      requires Valid() && !doneClosed && p in commitQueues
      modifies this`commitQueues
      ensures Valid()
      ensures commitQueues == old(commitQueues)[p := Signal(old(commitQueues[p]), offset)]
    {
      var q := commitQueues[p];
      var i := 0;
      while i < |q| && q[i].offset != offset
        invariant 0 <= i <= |q|
        invariant forall j :: 0 <= j < i ==> q[j].offset != offset
      {
        i := i + 1;
      }
      if i < |q| {
        var m := q[i];
        if m.events == 0 {
          m := m.(delivered := true);
        } else {
          m := m.(events := m.events - 1);
          if m.events == 0 {
            m := m.(delivered := true);
          }
        }
        TotalLenOfUpdate(commitQueues, partitions, p, q[i := m]);
        assert q[i := m] == Signal(q, offset);
        commitQueues := commitQueues[p := q[i := m]];
      } else {
        assert q == Signal(q, offset);
        assert commitQueues == commitQueues[p := q];
      }
    }

    /** The commit of one queue in the commit phase: the longest delivered prefix is committed at its end and
        removed, whether or not the broker accepts the commit, and one token is given back per message. */
    method CommitQueue(p: nat, accepted: bool)
      requires Valid() && p in commitQueues
      modifies this`commitQueues, this`commits, commitSemaphore
      ensures Valid()
      ensures commitQueues == Trimmed(old(commitQueues), p)
      ensures commitSemaphore.held == old(commitSemaphore.held) - Prefix(old(commitQueues[p]))
              && Spare() == old(Spare())
      ensures commits == old(commits)[p := old(commits[p]) + Committed(old(commitQueues[p]), accepted)]
    {
      var q := commitQueues[p];
      var n := 0;
      while n < |q| && q[n].delivered
        invariant n <= |q| && n + Prefix(q[n..]) == Prefix(q)
      {
        n := n + 1;
        assert q[n - 1..][1..] == q[n..];
      }
      assert n == Prefix(q);
      if n > 0 {
        commits := commits[p := commits[p] + [Commit(q[n - 1].offset + 1, accepted)]];
      } else {
        assert commits[p] + Committed(q, accepted) == commits[p];
      }
      assert commits == old(commits)[p := old(commits[p]) + Committed(q, accepted)];
      DeleteOldest(p, n);
    }

    /** Removes the n oldest messages of a queue, giving back one token for each. */
    method DeleteOldest(p: nat, n: nat)
      requires Valid() && p in commitQueues && n <= |commitQueues[p]|
      modifies this`commitQueues, commitSemaphore
      ensures Valid()
      ensures commitQueues == old(commitQueues)[p := old(commitQueues[p])[n..]]
      ensures commitSemaphore.held == old(commitSemaphore.held) - n && Spare() == old(Spare())
    {
      ghost var q := commitQueues[p];
      for deleted := 0 to n
        invariant Valid()
        invariant commitQueues == old(commitQueues)[p := q[deleted..]]
        invariant commitSemaphore.held == old(commitSemaphore.held) - deleted && Spare() == old(Spare())
      {
        TotalLenCovers(commitQueues, partitions, p);
        TotalLenOfUpdate(commitQueues, partitions, p, commitQueues[p][1..]);
        commitQueues := commitQueues[p := commitQueues[p][1..]];
        commitSemaphore.Release();
      }
    }

    /** The commit phase: every queue is trimmed, in any order, and the controller finishes when all readers
        have left and no token is held. */
    method OnTick(accepted: nat -> bool)
      requires Valid() && !doneClosed
      modifies this`commitQueues, this`commits, this`doneClosed, commitSemaphore
      ensures Valid()
      ensures Swept(old(commitQueues), old(commits), accepted, {}, commitQueues, commits)
      ensures Spare() == old(Spare())
      ensures doneClosed == (exitIfQueueEmpty && commitSemaphore.held == 0)
    {
      var todo := commitQueues.Keys;
      while todo != {}
        invariant Valid()
        invariant !doneClosed && todo <= commitQueues.Keys
        invariant Swept(old(commitQueues), old(commits), accepted, todo, commitQueues, commits)
        invariant Spare() == old(Spare())
        decreases todo
      {
        var p :| p in todo;
        SweptStep(old(commitQueues), old(commits), accepted, todo, commitQueues, commits, p);
        CommitQueue(p, accepted(p));
        todo := todo - {p};
      }
      if exitIfQueueEmpty && commitSemaphore.held == 0 {
        doneClosed := true;
      }
    }

    /** A reader left its fetch loop. */
    method OnExit()
      requires Valid() && !doneClosed
      modifies this`readersCount, this`exitIfQueueEmpty, this`doneClosed
      ensures Valid()
      ensures readersCount == old(readersCount) - 1
      ensures exitIfQueueEmpty == (old(exitIfQueueEmpty) || readersCount <= 0)
      ensures doneClosed == (readersCount <= 0 && commitSemaphore.held == 0)
    {
      readersCount := readersCount - 1;
      if readersCount <= 0 {
        exitIfQueueEmpty := true;
        if commitSemaphore.held == 0 {
          doneClosed := true;
        }
      }
    }
  }
}
