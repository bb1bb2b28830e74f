/** The stages that copy tracked events: the clone processor, the parser processor and the fan-out
    (plugins/processors/clone/clone.go, plugins/processors/parser/parser.go, plugins/core/fanout/fanout.go). */
module Stages {
  import opened Tracker
  import opened Options

  /** An event as it was when it was sent or received: from then on another goroutine may change it. */
  datatype Snapshot = Snapshot(event: Event, id: string, uuid: nat, timestamp: int, routingKey: string,
                               tags: seq<string>, labels: map<string, string>, data: string, errors: seq<string>,
                               tracker: Tracker?)

  function Of(e: Event): Snapshot
    reads e
  {
    Snapshot(e, e.id, e.uuid, e.timestamp, e.routingKey, e.tags, e.labels, e.data, e.errors, e.tracker)
  }

  /** A channel, by the history of what was sent on it. */
  class Chan {
    var sent: seq<Snapshot>

    constructor ()
      ensures sent == []
    {
      sent := [];
    }

    method Send(e: Event)
      modifies this
      ensures sent == old(sent) + [Of(e)]
    {
      sent := sent + [Of(e)];
    }
  }

  /** New events that carry the origin's tracker, each sent once. */
  ghost predicate Fresh(e: Event, t: Tracker?, copies: seq<Snapshot>) {
    && (forall c <- copies :: c.event != e && c.tracker == t)
    && forall i, j :: 0 <= i < j < |copies| ==> copies[i].event != copies[j].event
  }

  lemma NoneFresh(e: Event, t: Tracker?)
    ensures Fresh(e, t, [])
  {
  }

  lemma FreshAppend(e: Event, t: Tracker?, copies: seq<Snapshot>, c: Snapshot)
    requires Fresh(e, t, copies) && c.event != e && c.tracker == t && forall x <- copies :: x.event != c.event
    ensures Fresh(e, t, copies + [c])
  {
  }

  /** The consumed event and its copies, each sent exactly once, all with the tracker t; and the duty has grown
      by one for every copy, so that it still is the number of live copies. */
  ghost predicate Balanced(e: Event, sent: seq<Snapshot>, t: Tracker?, before: Int32, after: Int32) {
    && (exists i :: 0 <= i < |sent| && sent[i].event == e)
    && (forall i, j :: 0 <= i < j < |sent| ==> sent[i].event != sent[j].event)
    && (forall i :: 0 <= i < |sent| ==> sent[i].tracker == t)
    && (t != null ==> after == Wrap(before + |sent| - 1))
  }

  /** Copies before the origin, and perhaps one more after it, balance. */
  lemma CopiesBalance(e: Event, origin: Snapshot, copies: seq<Snapshot>, more: seq<Snapshot>, before: Int32,
                      after: Int32)
    requires origin.event == e && Fresh(e, origin.tracker, copies + more)
    requires origin.tracker != null ==> after == Wrap(before + |copies| + |more|)
    ensures Balanced(e, copies + [origin] + more, origin.tracker, before, after)
  {
    hide Wrap;
    var sent, others := copies + [origin] + more, copies + more;
    assert sent[|copies|] == origin;
    forall i, j | 0 <= i < j < |sent| ensures sent[i].event != sent[j].event {
      assert i < |copies| ==> sent[i] == others[i];
      assert i > |copies| ==> sent[i] == others[i - 1];
      assert j < |copies| ==> sent[j] == others[j];
      assert j > |copies| ==> sent[j] == others[j - 1];
    }
    forall i | 0 <= i < |sent| ensures sent[i].tracker == origin.tracker {
      assert i < |copies| ==> sent[i] == others[i];
      assert i > |copies| ==> sent[i] == others[i - 1];
    }
  }

  ghost function DutyOf(t: Tracker?): Int32
    reads t
  {
    if t == null then 0 else t.duty
  }

  // ---- The clone processor ----

  /** What the clone processor makes of an event, but for the identity of the copy. */
  ghost predicate ClonedAs(c: Snapshot, origin: Snapshot, uuid: nat, routingKey: string, labels: map<string, string>) {
    && c.id == origin.id && c.uuid == uuid && c.timestamp == origin.timestamp
    && c.data == origin.data && c.tags == origin.tags && c.errors == origin.errors
    && c.labels == origin.labels + labels
    && c.routingKey == if routingKey == "" then origin.routingKey else routingKey
  }

  method CloneOnce(e: Event, uuid: nat, routingKey: string, labels: map<string, string>, saveTimestamp: bool,
                   out: Chan)
    returns (ghost c: Snapshot)
    modifies e.tracker, out
    ensures out.sent == old(out.sent) + [c] && fresh(c.event) && c.tracker == e.tracker
    ensures ClonedAs(c, Of(e), uuid, routingKey, labels)
    ensures e.tracker != null ==> e.tracker.duty == Wrap(old(DutyOf(e.tracker)) + 1)
  {
    var cloned := e.Clone(uuid);
    if |routingKey| > 0 {
      cloned.routingKey := routingKey;
    }
    cloned.labels := cloned.labels + labels;
    if saveTimestamp {
      cloned.timestamp := e.timestamp;
    }
    out.Send(cloned);
    c := Of(cloned);
  }

  /** `count` clones with the configured routing key and labels, then the origin; a count below one is one. Every
      clone has the origin's timestamp, whatever the setting for it is. */
  method CloneEvent(e: Event, count: int, routingKey: string, labels: map<string, string>, newUuid: nat -> nat,
                    saveTimestamp: bool, out: Chan)
    returns (ghost clones: seq<Snapshot>)
    modifies e.tracker, out
    ensures out.sent == old(out.sent) + clones + [Of(e)] && Of(e) == old(Of(e))
    ensures |clones| == if count <= 0 then 1 else count
    ensures forall i :: 0 <= i < |clones| ==> ClonedAs(clones[i], Of(e), newUuid(i), routingKey, labels)
    ensures Balanced(e, clones + [Of(e)], e.tracker, old(DutyOf(e.tracker)), DutyOf(e.tracker))
  {
    hide Wrap, ClonedAs, Balanced, Fresh;
    var n := if count <= 0 then 1 else count;
    ghost var before := DutyOf(e.tracker);
    clones := [];
    NoneFresh(e, e.tracker);
    for i := 0 to n
      invariant |clones| == i && out.sent == old(out.sent) + clones
      invariant Fresh(e, e.tracker, clones)
      invariant forall j :: 0 <= j < i ==> ClonedAs(clones[j], Of(e), newUuid(j), routingKey, labels)
      invariant e.tracker != null ==> e.tracker.duty == Wrap(before + i)
      invariant unchanged(e)
    {
      ghost var c := CloneOnce(e, newUuid(i), routingKey, labels, saveTimestamp, out);
      WrapAdd(before + i, 1);
      FreshAppend(e, e.tracker, clones, c);
      clones := clones + [c];
    }
    out.Send(e);
    assert clones + [] == clones && clones + [Of(e)] + [] == clones + [Of(e)];
    CopiesBalance(e, Of(e), clones, [], before, DutyOf(e.tracker));
  }

  // ---- The parser processor ----

  /** What the event's `from` field holds: nothing, something that is no text, or text that the parser rejects
      or turns into donor events, of which only the data are used. */
  datatype Field = Absent | NotText | Unparsable(error: string) | Donors(donors: seq<string>)

  /** The parser's configuration, with the data accessors as parameters: `put` fails with None. */
  datatype Parser = Parser(produce: bool, dropOrigin: bool, put: (string, string) -> Option<string>,
    del: string -> string)
  {
    /** The data of the copy made for a donor. */
    function Copied(data: string, donor: string): Option<string> {
      if produce then Some(donor) else put(if dropOrigin then del(data) else data, donor)
    }

    /** The number of donors before the first that cannot be set. */
    function Settable(data: string, donors: seq<string>): (n: nat)
      ensures n <= |donors|
      ensures forall i :: 0 <= i < n ==> Copied(data, donors[i]).Some?
      ensures n < |donors| ==> Copied(data, donors[n]).None?
    {
      if donors == [] || Copied(data, donors[0]).None? then 0 else 1 + Settable(data, donors[1..])
    }
  }

  /** The copies carry the donors' data, in the donors' order, and what else the origin has. */
  ghost predicate Parsed(p: Parser, origin: Snapshot, copies: seq<Snapshot>, donors: seq<string>) {
    && |copies| <= |donors|
    && forall i :: 0 <= i < |copies| ==>
         p.Copied(origin.data, donors[i]) == Some(copies[i].data) && Resembles(copies[i], origin)
  }

  /** The same, but for the identity and the data. */
  predicate Resembles(copy: Snapshot, origin: Snapshot) {
    copy == origin.(event := copy.event, id := copy.id, uuid := copy.uuid, data := copy.data)
  }

  /** What the copies' data are: in the behaviour `produce` the donor's data; in the behaviour `merge` the origin's,
      without the field that was parsed if the origin is dropped, with the donor's data set. */
  lemma ParsedData(p: Parser, origin: Snapshot, copies: seq<Snapshot>, donors: seq<string>)
    requires Parsed(p, origin, copies, donors)
    ensures forall i :: 0 <= i < |copies| ==>
              && (p.produce ==> copies[i].data == donors[i])
              && (!p.produce && p.dropOrigin ==> p.put(p.del(origin.data), donors[i]) == Some(copies[i].data))
              && (!p.produce && !p.dropOrigin ==> p.put(origin.data, donors[i]) == Some(copies[i].data))
              && Resembles(copies[i], origin)
  {
  }

  /** Only setting the donor's data can fail. */
  lemma UnsettableData(p: Parser, data: string, donors: seq<string>)
    requires p.Settable(data, donors) < |donors|
    ensures !p.produce && p.put(if p.dropOrigin then p.del(data) else data, donors[p.Settable(data, donors)]) == None
  {
  }

  /** The first donors have been set on new events. */
  ghost predicate ParsedSoFar(p: Parser, e: Event, origin: Snapshot, donors: seq<string>, copies: seq<Snapshot>) {
    && Parsed(p, origin, copies, donors) && Fresh(e, origin.tracker, copies)
    && p.Settable(origin.data, donors) == |copies| + p.Settable(origin.data, donors[|copies|..])
  }

  lemma ParsedNone(p: Parser, e: Event, origin: Snapshot, donors: seq<string>)
    ensures ParsedSoFar(p, e, origin, donors, [])
  {
    assert donors[0..] == donors;
  }

  lemma ParsedAll(p: Parser, e: Event, origin: Snapshot, donors: seq<string>, copies: seq<Snapshot>)
    requires ParsedSoFar(p, e, origin, donors, copies) && |copies| == |donors|
    ensures p.Settable(origin.data, donors) == |copies|
    ensures Fresh(e, origin.tracker, copies + []) && Parsed(p, origin, copies, donors)
  {
    assert copies + [] == copies;
  }

  lemma ParsedOneMore(p: Parser, e: Event, origin: Snapshot, donors: seq<string>, copies: seq<Snapshot>,
                      copy: Snapshot, ok: bool)
    requires ParsedSoFar(p, e, origin, donors, copies) && |copies| < |donors|
    requires copy.event != e && copy.tracker == origin.tracker && forall c <- copies :: c.event != copy.event
    requires ok == p.Copied(origin.data, donors[|copies|]).Some?
    requires ok ==> p.Copied(origin.data, donors[|copies|]) == Some(copy.data) && Resembles(copy, origin)
    ensures Fresh(e, origin.tracker, copies + [copy]) && Parsed(p, origin, copies, donors)
    ensures ok ==> ParsedSoFar(p, e, origin, donors, copies + [copy])
    ensures !ok ==> p.Settable(origin.data, donors) == |copies|
  {
    hide Parser.Copied;
    assert donors[|copies|..][1..] == donors[|copies| + 1..];
  }

  /** A clone of the origin with the donor's data, unless they cannot be set. */
  method CopyFor(p: Parser, e: Event, donor: string, uuid: nat) returns (event: Event, ok: bool)
    modifies e.tracker
    ensures fresh(event) && event.tracker == e.tracker
    ensures ok == p.Copied(e.data, donor).Some?
    ensures ok ==> p.Copied(e.data, donor) == Some(event.data)
    ensures Resembles(Of(event), Of(e)) && Of(e) == old(Of(e))
    ensures e.tracker != null ==> e.tracker.duty == Wrap(old(DutyOf(e.tracker)) + 1)
  {
    event := e.Clone(uuid);
    ok := true;
    if p.produce {
      event.data := donor;
    } else {
      if p.dropOrigin {
        event.data := p.del(event.data);
      }
      match p.put(event.data, donor) {
        case None => ok := false;
        case Some(data) => event.data := data;
      }
    }
  }

  /** One donor: its copy goes on, or, if it could not be set, the copy is dropped and the origin goes on with
      the error. */
  method ParseDonor(p: Parser, e: Event, donor: string, uuid: nat, out: Chan, drop: Chan)
    returns (ghost copy: Snapshot, ok: bool)
    requires out != drop
    modifies e.tracker, e`errors, out, drop
    ensures fresh(copy.event) && copy.tracker == e.tracker
    ensures ok == p.Copied(e.data, donor).Some? && (ok ==> p.Copied(e.data, donor) == Some(copy.data))
    ensures Resembles(copy, old(Of(e)))
    ensures Of(e) == old(Of(e)).(errors := if ok then old(e.errors) else old(e.errors) + ["error set field"])
    ensures out.sent == old(out.sent) + [if ok then copy else Of(e)]
    ensures drop.sent == if ok then old(drop.sent) else old(drop.sent) + [copy]
    ensures e.tracker != null ==> e.tracker.duty == Wrap(old(DutyOf(e.tracker)) + 1)
  {
    var event;
    event, ok := CopyFor(p, e, donor, uuid);
    copy := Of(event);
    if ok {
      out.Send(event);
    } else {
      drop.Send(event);
      e.errors := e.errors + ["error set field"];
      out.Send(e);
    }
  }

  /** One clone of the origin per donor, up to the first that cannot be set: that clone is dropped, the origin
      goes on with the error, and the rest of the donors is skipped. */
  method ParseDonors(p: Parser, e: Event, donors: seq<string>, newUuid: nat -> nat, out: Chan, drop: Chan)
    returns (failed: bool, ghost copies: seq<Snapshot>, ghost dropped: seq<Snapshot>)
    requires out != drop
    modifies e.tracker, e`errors, out, drop
    ensures |copies| == p.Settable(e.data, donors) && failed == (|copies| < |donors|)
    ensures |dropped| == if failed then 1 else 0
    ensures forall i :: 0 <= i < |copies| ==>
              && (p.produce ==> copies[i].data == donors[i])
              && (!p.produce && p.dropOrigin ==> p.put(p.del(e.data), donors[i]) == Some(copies[i].data))
              && (!p.produce && !p.dropOrigin ==> p.put(e.data, donors[i]) == Some(copies[i].data))
              && Resembles(copies[i], old(Of(e)))
    ensures failed ==> !p.produce && p.put(if p.dropOrigin then p.del(e.data) else e.data, donors[|copies|]) == None
    ensures Parsed(p, old(Of(e)), copies, donors) && Fresh(e, e.tracker, copies + dropped)
    ensures Of(e) == old(Of(e)).(errors := old(e.errors) + if failed then ["error set field"] else [])
    ensures out.sent == old(out.sent) + copies + if failed then [Of(e)] else []
    ensures drop.sent == old(drop.sent) + dropped
    ensures e.tracker != null ==> e.tracker.duty == Wrap(old(DutyOf(e.tracker)) + |copies| + |dropped|)
  {
    hide Wrap, Parser.Copied, Parser.Settable, Parsed, Fresh, ParsedSoFar;
    ghost var before := DutyOf(e.tracker);
    copies, dropped := [], [];
    var i := 0;
    ParsedNone(p, e, Of(e), donors);
    while i < |donors|
      invariant out.sent == old(out.sent) + copies && drop.sent == old(drop.sent)
      invariant i == |copies| <= |donors| && ParsedSoFar(p, e, Of(e), donors, copies)
      invariant e.tracker != null ==> e.tracker.duty == Wrap(before + i)
      invariant unchanged(e)
    {
      ghost var copy;
      var ok;
      copy, ok := ParseDonor(p, e, donors[i], newUuid(i), out, drop);
      WrapAdd(before + i, 1);
      ParsedOneMore(p, e, old(Of(e)), donors, copies, copy, ok);
      if !ok {
        ParsedData(p, old(Of(e)), copies, donors);
        UnsettableData(p, e.data, donors);
        dropped := [copy];
        return true, copies, dropped;
      }
      copies := copies + [copy];
      i := i + 1;
    }
    ParsedAll(p, e, Of(e), donors, copies);
    ParsedData(p, Of(e), copies, donors);
    failed := false;
  }

  /** What a pass of the parser sends for a parsed event `before`, which it leaves as `origin`. */
  ghost predicate DonorsSent(p: Parser, before: Snapshot, origin: Snapshot, donors: seq<string>, outs: seq<Snapshot>,
                             drops: seq<Snapshot>) {
    var n := p.Settable(before.data, donors);
    && n <= |outs| && Parsed(p, before, outs[..n], donors)
    && if n < |donors| then outs[n..] == [origin] && |drops| == 1
       else if p.produce && !p.dropOrigin then outs[n..] == [origin] && drops == []
       else outs[n..] == [] && drops == [origin]
  }

  lemma DonorsData(p: Parser, before: Snapshot, origin: Snapshot, donors: seq<string>, outs: seq<Snapshot>,
                   drops: seq<Snapshot>)
    requires DonorsSent(p, before, origin, donors, outs, drops)
    ensures var n := p.Settable(before.data, donors);
            && n <= |outs|
            && (forall i :: 0 <= i < n ==>
                  && (p.produce ==> outs[i].data == donors[i])
                  && (!p.produce && p.dropOrigin ==> p.put(p.del(before.data), donors[i]) == Some(outs[i].data))
                  && (!p.produce && !p.dropOrigin ==> p.put(before.data, donors[i]) == Some(outs[i].data))
                  && Resembles(outs[i], before))
            && (if n < |donors| then
                  && !p.produce && outs[n..] == [origin] && |drops| == 1
                  && p.put(if p.dropOrigin then p.del(before.data) else before.data, donors[n]) == None
                else if p.produce && !p.dropOrigin then outs[n..] == [origin] && drops == []
                else |outs| == n && drops == [origin])
  {
    var n := p.Settable(before.data, donors);
    ParsedData(p, before, outs[..n], donors);
    if n < |donors| {
      UnsettableData(p, before.data, donors);
    }
    hide Parser.Copied, Parser.Settable;
    assert forall i :: 0 <= i < n ==> outs[i] == outs[..n][i];
  }

  method ParseParsed(p: Parser, e: Event, donors: seq<string>, newUuid: nat -> nat, out: Chan, drop: Chan)
    returns (ghost outs: seq<Snapshot>, ghost drops: seq<Snapshot>)
    requires out != drop
    modifies e.tracker, e`errors, out, drop
    ensures out.sent == old(out.sent) + outs && drop.sent == old(drop.sent) + drops
    ensures Of(e) == old(Of(e)).(errors := e.errors)
    ensures e.errors == old(e.errors) + if p.Settable(e.data, donors) < |donors| then ["error set field"] else []
    ensures Balanced(e, outs + drops, e.tracker, old(DutyOf(e.tracker)), DutyOf(e.tracker))
    ensures DonorsSent(p, old(Of(e)), Of(e), donors, outs, drops)
  {
    hide Wrap, Parsed, Balanced, Fresh, Parser.Settable, Parser.Copied;
    ghost var before := DutyOf(e.tracker);
    var failed, copies, dropped := ParseDonors(p, e, donors, newUuid, out, drop);
    CopiesBalance(e, Of(e), copies, dropped, before, DutyOf(e.tracker));
    outs, drops := copies + [Of(e)], dropped;
    if !failed {
      if p.produce && !p.dropOrigin {
        out.Send(e);
      } else {
        drop.Send(e);
        outs, drops := copies, [Of(e)];
      }
    }
    assert outs + drops == copies + [Of(e)] + dropped;
    assert outs[..|copies|] == copies;
  }

  lemma OneBalances(e: Event, origin: Snapshot, duty: Int32)
    requires origin.event == e
    ensures Balanced(e, [origin] + [], origin.tracker, duty, duty)
  {
    assert ([origin] + [])[0].event == e;
  }

  /** One pass of the parser's main loop. Whatever the field holds and wherever setting a donor fails, the events
      sent on the two channels balance: the origin is sent once, every clone is sent once, and the duty is the
      number of copies that are still alive. */
  method ParseEvent(p: Parser, e: Event, field: Field, newUuid: nat -> nat, out: Chan, drop: Chan)
    returns (ghost outs: seq<Snapshot>, ghost drops: seq<Snapshot>)
    requires out != drop
    modifies e.tracker, e`errors, out, drop
    ensures out.sent == old(out.sent) + outs && drop.sent == old(drop.sent) + drops
    ensures Of(e) == old(Of(e)).(errors := e.errors)
    ensures Balanced(e, outs + drops, e.tracker, old(DutyOf(e.tracker)), DutyOf(e.tracker))
    ensures match field
            case Donors(donors) =>
              e.errors == old(e.errors) + if p.Settable(e.data, donors) < |donors| then ["error set field"] else []
            case Unparsable(error) => outs == [Of(e)] && drops == [] && e.errors == old(e.errors) + [error]
            case _ => outs == [Of(e)] && drops == [] && e.errors == old(e.errors)
    ensures field.Donors? ==>
              var n := p.Settable(e.data, field.donors);
              && n <= |outs|
              && (forall i :: 0 <= i < n ==>
                    && (p.produce ==> outs[i].data == field.donors[i])
                    && (!p.produce && p.dropOrigin ==> p.put(p.del(e.data), field.donors[i]) == Some(outs[i].data))
                    && (!p.produce && !p.dropOrigin ==> p.put(e.data, field.donors[i]) == Some(outs[i].data))
                    && Resembles(outs[i], old(Of(e))))
              && (if n < |field.donors| then
                    && !p.produce && outs[n..] == [Of(e)] && |drops| == 1
                    && p.put(if p.dropOrigin then p.del(e.data) else e.data, field.donors[n]) == None
                  else if p.produce && !p.dropOrigin then outs[n..] == [Of(e)] && drops == []
                  else |outs| == n && drops == [Of(e)])
  {
    hide Wrap, Balanced, DonorsSent, Parser.Settable, Parser.Copied;
    match field {
      case Donors(donors) =>
        outs, drops := ParseParsed(p, e, donors, newUuid, out, drop);
        DonorsData(p, old(Of(e)), Of(e), donors, outs, drops);
      case Unparsable(error) =>
        e.errors := e.errors + [error];
        out.Send(e);
        outs, drops := [Of(e)], [];
        OneBalances(e, Of(e), DutyOf(e.tracker));
      case _ =>
        out.Send(e);
        outs, drops := [Of(e)], [];
        OneBalances(e, Of(e), DutyOf(e.tracker));
    }
  }

  // ---- The fan-out ----

  /** The fan-out goroutine between two of its channel operations: it consumes an event, and then sends a clone
      to every output but the last, and the origin to the last. The input and the outputs are histories. */
  class FanOut {
    var held: Event?
    var next: nat
    var consumed: seq<Snapshot>
    var outs: seq<seq<Snapshot>>

    /** The number of events that output i has got. */
    ghost function Count(i: nat): nat
      reads this
    {
      if next <= i && consumed != [] then |consumed| - 1 else |consumed|
    }

    /** Every output's sequence is a prefix of what was consumed, and lags by one event at most; the last output
        got the origins themselves, the others clones. */
    ghost predicate Valid()
      reads this, held
    {
      && next <= |outs|
      && (next < |outs| ==> consumed != [] && held != null && consumed[|consumed| - 1] == Of(held))
      && forall i: nat :: i < |outs| ==> Follows(outs[i], consumed, Count(i), i == |outs| - 1)
    }

    constructor (count: nat)
      ensures Valid() && consumed == [] && outs == seq(count, _ => []) && next == count
    {
      held, consumed := null, [];
      outs := seq(count, _ => []);
      next := count;
    }

    /** Consumes an event; with no output there is nothing else to do for it. */
    method Receive(e: Event)
      requires Valid() && next == |outs|
      modifies this`held, this`next, this`consumed
      ensures Valid() && held == e && next == 0 && consumed == old(consumed) + [Of(e)]
    {
      assert forall i: nat :: i < |outs| ==> Follows(outs[i], consumed + [Of(e)], |consumed|, i == |outs| - 1);
      held, next := e, 0;
      consumed := consumed + [Of(e)];
    }

    /** Sends to the next output. */
    method SendNext() returns (sent: Snapshot)
      requires Valid() && next < |outs|
      modifies this`next, this`outs, held.tracker
      ensures Valid() && next == old(next) + 1 && outs == old(outs)[old(next) := old(outs)[old(next)] + [sent]]
      ensures sent.(event := held) == Of(held) && old(Of(held)) == Of(held)
      ensures if next == |outs| then sent.event == held else fresh(sent.event)
      ensures held.tracker != null ==>
                held.tracker.duty == if next == |outs| then old(DutyOf(held.tracker))
                  else Wrap(old(DutyOf(held.tracker)) + 1)
    {
      var event := held;
      if next < |outs| - 1 {
        event := held.Clone(held.uuid);
      }
      sent := Of(event);
      SendKeeps(outs[next], consumed, sent, next == |outs| - 1);
      outs := outs[next := outs[next] + [sent]];
      next := next + 1;
    }

    /** One pass of the main loop. The events sent balance exactly when there is an output; without one the event
        is lost, and its duty never falls. */
    method Pass(e: Event) returns (sent: seq<Snapshot>)
      requires Valid() && next == |outs|
      modifies this, e.tracker
      ensures Valid() && next == |outs| == |old(outs)| == |sent|
      ensures consumed == old(consumed) + [Of(e)] && Of(e) == old(Of(e))
      ensures forall i :: 0 <= i < |outs| ==> outs[i] == old(outs)[i] + [sent[i]]
      ensures Balanced(e, sent, e.tracker, old(DutyOf(e.tracker)), DutyOf(e.tracker)) <==> |outs| >= 1
    {
      hide Wrap, Follows, Balanced, Passed, Extended;
      ghost var before := DutyOf(e.tracker);
      Receive(e);
      sent := [];
      PassedNone(e, Of(e), |outs|, before, outs);
      while next < |outs|
        invariant Valid() && held == e && next == |sent| && Of(e) == old(Of(e))
        invariant |outs| == old(|outs|) && consumed == old(consumed) + [Of(e)]
        invariant Extended(old(outs), sent, outs) && Passed(e, Of(e), |outs|, sent, before, DutyOf(e.tracker))
      {
        ghost var duty, now := DutyOf(e.tracker), outs;
        var s := SendNext();
        PassedOneMore(e, Of(e), |outs|, sent, s, before, duty, DutyOf(e.tracker));
        ExtendedOneMore(old(outs), sent, s, now);
        sent := sent + [s];
      }
      PassedAll(e, Of(e), |outs|, sent, before, DutyOf(e.tracker));
      ExtendedAll(old(outs), sent, outs);
    }
  }

  /** A pass over n outputs on its way: clones only, and the origin for the last output. */
  ghost predicate Passed(e: Event, origin: Snapshot, n: nat, sent: seq<Snapshot>, before: Int32, now: Int32) {
    && |sent| <= n
    && (0 < |sent| == n ==> sent[n - 1] == origin)
    && var clones := if 0 < |sent| == n then |sent| - 1 else |sent|;
       && Fresh(e, origin.tracker, sent[..clones])
       && (origin.tracker != null ==> now == Wrap(before + clones))
       && (origin.tracker == null ==> now == before)
  }

  ghost predicate Extended(before: seq<seq<Snapshot>>, sent: seq<Snapshot>, now: seq<seq<Snapshot>>) {
    && |sent| <= |before| == |now|
    && forall i :: 0 <= i < |now| ==> now[i] == if i < |sent| then before[i] + [sent[i]] else before[i]
  }

  lemma PassedNone(e: Event, origin: Snapshot, n: nat, before: Int32, outs: seq<seq<Snapshot>>)
    ensures Passed(e, origin, n, [], before, before) && Extended(outs, [], outs)
  {
  }

  lemma PassedOneMore(e: Event, origin: Snapshot, n: nat, sent: seq<Snapshot>, s: Snapshot, before: Int32,
                      now: Int32, after: Int32)
    requires Passed(e, origin, n, sent, before, now) && |sent| < n && s.tracker == origin.tracker && origin.event == e
    requires if |sent| == n - 1 then s == origin else s.event != e && forall c <- sent :: c.event != s.event
    requires origin.tracker != null ==> after == if |sent| == n - 1 then now else Wrap(now + 1)
    requires origin.tracker == null ==> after == now
    ensures Passed(e, origin, n, sent + [s], before, after)
  {
    hide Wrap;
    WrapAdd(before + |sent|, 1);
    assert (sent + [s])[..|sent|] == sent == sent[..|sent|];
    assert (sent + [s])[..|sent| + 1] == sent + [s];
  }

  lemma ExtendedOneMore(before: seq<seq<Snapshot>>, sent: seq<Snapshot>, s: Snapshot, now: seq<seq<Snapshot>>)
    requires Extended(before, sent, now) && |sent| < |before|
    ensures Extended(before, sent + [s], now[|sent| := now[|sent|] + [s]])
  {
  }

  lemma ExtendedAll(before: seq<seq<Snapshot>>, sent: seq<Snapshot>, now: seq<seq<Snapshot>>)
    requires Extended(before, sent, now) && |sent| == |now|
    ensures forall i :: 0 <= i < |now| ==> now[i] == before[i] + [sent[i]]
  {
  }

  lemma PassedAll(e: Event, origin: Snapshot, n: nat, sent: seq<Snapshot>, before: Int32, after: Int32)
    requires Passed(e, origin, n, sent, before, after) && |sent| == n && origin.event == e
    ensures Balanced(e, sent, origin.tracker, before, after) <==> n >= 1
  {
    hide Wrap;
    if n > 0 {
      var clones := sent[..n - 1];
      assert clones + [] == clones && clones + [origin] + [] == sent;
      CopiesBalance(e, origin, clones, [], before, after);
    }
  }

  /** The first `count` of what was consumed: the events themselves, or clones that also keep the uuid. */
  ghost predicate Follows(out: seq<Snapshot>, consumed: seq<Snapshot>, count: nat, origins: bool) {
    && |out| == count <= |consumed|
    && forall k :: 0 <= k < count ==>
         && out[k].(event := consumed[k].event) == consumed[k]
         && (out[k].event == consumed[k].event <==> origins)
  }

  lemma SendKeeps(out: seq<Snapshot>, consumed: seq<Snapshot>, sent: Snapshot, origins: bool)
    requires consumed != [] && Follows(out, consumed, |consumed| - 1, origins)
    requires var last := consumed[|consumed| - 1];
             sent.(event := last.event) == last && (sent.event == last.event <==> origins)
    ensures Follows(out + [sent], consumed, |consumed|, origins)
  {
  }
}
