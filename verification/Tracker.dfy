/** The delivery tracker of an event (core/tracker.go) and the event's use of it (core/event.go). */
module Tracker {

  /** Go's int32: arithmetic wraps around. */
  const TWO_32: int := 0x1_0000_0000
  const TWO_31: int := 0x8000_0000

  type Int32 = n: int | -TWO_31 <= n < TWO_31

  function Wrap(n: int): (r: Int32)
    ensures (r - n) % TWO_32 == 0
    ensures -TWO_31 <= n < TWO_31 ==> r == n
  {
    var m := n % TWO_32;
    if m < TWO_31 then m else m - TWO_32
  }

  lemma WrapAdd(n: int, d: int)
    ensures Wrap(Wrap(n) + d) == Wrap(n + d)
  {
    assert (Wrap(n) + d) % TWO_32 == (n + d) % TWO_32;
  }

  /** A hook is known by a name; running it is recorded. */
  type Hook = nat

  class Tracker {
    var duty: Int32
    var hooks: seq<Hook>
    var ran: seq<Hook>

    constructor (hook: Hook)
      ensures duty == 1 && hooks == [hook] && ran == []
    {
      duty := 1;
      hooks := [hook];
      ran := [];
    }

    method AddHook(hook: Hook)
      modifies this`hooks
      ensures hooks == old(hooks) + [hook]
    {
      hooks := hooks + [hook];
    }

    method Copy()
      modifies this`duty
      ensures duty == Wrap(old(duty) + 1)
    {
      duty := Wrap(duty + 1);
    }

    /** Takes one copy off; below zero the process panics, at zero every hook runs, in the order added. */
    method Decrease() returns (panicked: bool)
      modifies this`duty, this`ran
      ensures duty == Wrap(old(duty) - 1)
      ensures panicked <==> duty < 0
      ensures ran == old(ran) + if duty == 0 then hooks else []
    {
      duty := Wrap(duty - 1);
      if duty < 0 {
        return true;
      }
      if duty == 0 {
        for i := 0 to |hooks|
          invariant ran == old(ran) + hooks[..i] && duty == Wrap(old(duty) - 1)
        {
          ran := ran + [hooks[i]];
          assert hooks[..i + 1] == hooks[..i] + [hooks[i]];
        }
        assert hooks[..|hooks|] == hooks;
      }
      panicked := false;
    }
  }

  // ---- What the counter means ----

  /** The two things that happen to the copies of a tracked event. */
  datatype Op = Copied | Finished

  /** The duty after a history of copies and ends of copies. */
  function DutyAfter(ops: seq<Op>): int {
    if ops == [] then 1
    else Wrap(DutyAfter(ops[..|ops| - 1]) + if ops[|ops| - 1].Copied? then 1 else -1)
  }

  /** How often the hooks have run. */
  function RunsAfter(ops: seq<Op>): nat {
    if ops == [] then 0
    else RunsAfter(ops[..|ops| - 1]) + if ops[|ops| - 1].Finished? && DutyAfter(ops) == 0 then 1 else 0
  }

  /** The copies that exist after the history. */
  function Copies(ops: seq<Op>): int {
    if ops == [] then 1 else Copies(ops[..|ops| - 1]) + if ops[|ops| - 1].Copied? then 1 else -1
  }

  /** A history that can happen: only an existing copy is copied or finished. */
  ghost predicate Possible(ops: seq<Op>) {
    forall k :: 0 <= k < |ops| ==> Copies(ops[..k]) >= 1
  }

  lemma {:induction false} DutyIsWrapped(ops: seq<Op>)
    ensures DutyAfter(ops) == Wrap(Copies(ops))
  {
    if ops != [] {
      var front := ops[..|ops| - 1];
      DutyIsWrapped(front);
      WrapAdd(Copies(front), if ops[|ops| - 1].Copied? then 1 else -1);
    }
  }

  /** The end of a copy panics exactly when the number of copies left, as an int32, is negative: never with at
      most 2^31 copies alive. */
  lemma FinishPanicsIff(ops: seq<Op>)
    requires Possible(ops + [Finished])
    ensures DutyAfter(ops + [Finished]) < 0 <==> (Copies(ops) - 1) % TWO_32 >= TWO_31
    ensures Copies(ops) <= TWO_31 ==> DutyAfter(ops + [Finished]) >= 0
  {
    var all := ops + [Finished];
    assert all[..|ops|] == ops && all[|all| - 1] == Finished;
    assert Copies(all[..|ops|]) >= 1;
    DutyIsWrapped(all);
    assert Copies(all) == Copies(ops) - 1 >= 0;
    hide DutyAfter, Copies;
  }

  ghost predicate Bounded(ops: seq<Op>) {
    forall k :: 0 <= k <= |ops| ==> Copies(ops[..k]) < TWO_31
  }

  /** With fewer than 2^31 copies at any time, the duty is the number of copies, and the hooks have run exactly
      once when no copy is left, and not at all before. */
  lemma {:induction false} DutyCountsCopies(ops: seq<Op>)
    requires Possible(ops) && Bounded(ops)
    ensures DutyAfter(ops) == Copies(ops) >= 0
    ensures RunsAfter(ops) == if Copies(ops) == 0 then 1 else 0
  {
    DutyIsWrapped(ops);
    assert ops[..|ops|] == ops;
    if ops != [] {
      var front := ops[..|ops| - 1];
      assert forall k :: 0 <= k <= |front| ==> front[..k] == ops[..k];
      DutyCountsCopies(front);
    }
  }

  // ---- Events ----

  class Event {
    var id: string
    var uuid: nat
    var timestamp: int
    var routingKey: string
    var tags: seq<string>
    var labels: map<string, string>
    var data: string
    var errors: seq<string>
    var tracker: Tracker?

    constructor (id: string, uuid: nat, timestamp: int, data: string)
      ensures this.id == id && this.uuid == uuid && this.timestamp == timestamp && this.data == data && tracker == null
      ensures routingKey == "" && tags == [] && labels == map[] && errors == []
    {
      this.id := id;
      this.uuid := uuid;
      this.timestamp := timestamp;
      this.data := data;
      routingKey, tags, labels, errors := "", [], map[], [];
      tracker := null;
    }

    method AddHook(hook: Hook)
      modifies this`tracker, tracker
      ensures tracker != null && (old(tracker) == null ==> fresh(tracker))
              && (old(tracker) != null ==> tracker == old(tracker))
      ensures old(tracker) == null ==> tracker.duty == 1 && tracker.hooks == [hook] && tracker.ran == []
      ensures old(tracker) != null ==>
                tracker.hooks == old(tracker.hooks) + [hook] && tracker.duty == old(tracker.duty)
                  && tracker.ran == old(tracker.ran)
    {
      if tracker == null {
        tracker := new Tracker(hook);
      } else {
        tracker.AddHook(hook);
      }
    }

    method Done() returns (panicked: bool)
      modifies tracker
      ensures tracker == null ==> !panicked
      ensures tracker != null ==>
                && tracker.duty == Wrap(old(tracker.duty) - 1) && (panicked <==> tracker.duty < 0)
                && tracker.hooks == old(tracker.hooks)
                && tracker.ran == old(tracker.ran) + if tracker.duty == 0 then tracker.hooks else []
    {
      panicked := false;
      if tracker != null {
        panicked := tracker.Decrease();
      }
    }

    /** A copy with its own uuid and the same contents, which shares the tracker and is counted by it. */
    method Clone(uuid: nat) returns (event: Event)
      modifies tracker
      ensures fresh(event) && event.tracker == tracker && event.uuid == uuid
      ensures event.id == id && event.timestamp == timestamp && event.routingKey == routingKey
      ensures event.tags == tags && event.labels == labels && event.data == data && event.errors == errors
      ensures tracker != null ==>
                && tracker.duty == Wrap(old(tracker.duty) + 1)
                && tracker.hooks == old(tracker.hooks) && tracker.ran == old(tracker.ran)
    {
      event := new Event(id, uuid, timestamp, data);
      event.routingKey := routingKey;
      if tracker != null {
        tracker.Copy();
        event.tracker := tracker;
      }
      event.tags := tags;
      event.errors := errors;
      event.labels := labels;
    }
  }

  /** Gives `to` the tracker of `from`, counting it; a receiver with a tracker is a panic. */
  method ShareTracker(from: Event, to: Event) returns (panicked: bool)
    modifies to`tracker, from.tracker
    ensures panicked <==> old(to.tracker) != null
    ensures panicked ==> to.tracker == old(to.tracker)
    ensures !panicked ==> to.tracker == old(from.tracker)
    ensures from.tracker == old(from.tracker)
    ensures from.tracker != null ==>
              && from.tracker.duty == (if panicked then old(from.tracker.duty) else Wrap(old(from.tracker.duty) + 1))
              && from.tracker.hooks == old(from.tracker.hooks) && from.tracker.ran == old(from.tracker.ran)
  {
    if to.tracker != null {
      return true;
    }
    panicked := false;
    var t := from.tracker;
    if t != null {
      t.Copy();
      to.tracker := t;
    }
  }
}
