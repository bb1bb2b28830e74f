/** The life of one tracked event, as seen by the broker input that emitted it: a tracker with one hook
    (core/tracker.go), followed from the hook's registration to the moment its signal is received. */
module Delivery {

  /** `Unsent`    the event exists, its hook is not registered yet
      `Live(n)`   n copies (the tracker's duty) are somewhere in the pipeline
      `Firing`    duty reached zero, the hook is blocked on the unbuffered signal channel
      `Signalled` the controller has received the hook's signal */
  datatype Ev = Unsent | Live(copies: nat) | Firing | Signalled

  /** One copy of a live event is done: the last one makes the hook run. */
  function Finish(e: Ev): Ev
    requires e.Live?
  {
    if e.copies > 1 then Live((e.copies - 1) as nat) else Firing
  }

  function Weight(e: Ev): nat {
    if e.Signalled? then 0 else 1
  }

  /** The number of events whose signal has not been received. */
  function Open(evs: seq<Ev>): nat {
    if evs == [] then 0 else Open(evs[..|evs| - 1]) + Weight(evs[|evs| - 1])
  }

  ghost predicate AllSignalled(evs: seq<Ev>) {
    forall i :: 0 <= i < |evs| ==> evs[i].Signalled?
  }

  ghost predicate AllUnsent(evs: seq<Ev>) {
    forall i :: 0 <= i < |evs| ==> evs[i].Unsent?
  }

  ghost predicate NoneUnsent(evs: seq<Ev>) {
    forall i :: 0 <= i < |evs| ==> !evs[i].Unsent?
  }

  function Fresh(n: nat): (evs: seq<Ev>)
    ensures |evs| == n && AllUnsent(evs)
  {
    seq(n, _ => Unsent)
  }

  lemma {:induction false} OpenOfUpdate(evs: seq<Ev>, i: nat, e: Ev)
    requires i < |evs|
    ensures Open(evs[i := e]) == Open(evs) - Weight(evs[i]) + Weight(e)
  {
    var n := |evs| - 1;
    if i < n {
      OpenOfUpdate(evs[..n], i, e);
      assert evs[i := e][..n] == evs[..n][i := e];
    } else {
      assert evs[i := e][..n] == evs[..n];
    }
  }

  lemma {:induction false} OpenOfUnsent(evs: seq<Ev>)
    requires AllUnsent(evs)
    ensures Open(evs) == |evs|
  {
    if evs != [] {
      OpenOfUnsent(evs[..|evs| - 1]);
    }
  }

  lemma {:induction false} OpenIsZero(evs: seq<Ev>)
    ensures Open(evs) == 0 <==> AllSignalled(evs)
  {
    if evs != [] {
      var front := evs[..|evs| - 1];
      OpenIsZero(front);
      assert AllSignalled(evs) ==> AllSignalled(front);
      assert forall i :: 0 <= i < |front| ==> evs[i] == front[i];
    }
  }
}
