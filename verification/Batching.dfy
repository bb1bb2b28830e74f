/** Batches through a pool of keyed runners: plugins/common/batcher/batcher.go, plugins/common/pool/pool.go, and
    their use by the Kafka output's main loop (plugins/outputs/kafka/kafka.go:211-236). */
module Batching {

  // ---- The batcher ----

  /** What the batcher's select loop gets until its input is closed. */
  datatype Arrival<T> = Item(e: T) | Tick

  function Items<T>(arrivals: seq<Arrival<T>>): seq<T> {
    if arrivals == [] then []
    else
      var front, last := arrivals[..|arrivals| - 1], arrivals[|arrivals| - 1];
      if last.Item? then Items(front) + [last.e] else Items(front)
  }

  function Flat<T>(batches: seq<seq<T>>): seq<T> {
    if batches == [] then [] else Flat(batches[..|batches| - 1]) + batches[|batches| - 1]
  }

  lemma FlatAppend<T>(batches: seq<seq<T>>, batch: seq<T>)
    ensures Flat(batches + [batch]) == Flat(batches) + batch
  {
    assert (batches + [batch])[..|batches|] == batches;
  }

  function Ticks<T>(arrivals: seq<Arrival<T>>): nat {
    if arrivals == [] then 0
    else Ticks(arrivals[..|arrivals| - 1]) + if arrivals[|arrivals| - 1].Tick? then 1 else 0
  }

  /** The batches that are shorter than the buffer. */
  function Short<T>(batches: seq<seq<T>>, buffer: nat): nat {
    if batches == [] then 0
    else Short(batches[..|batches| - 1], buffer) + if |batches[|batches| - 1]| < buffer then 1 else 0
  }

  lemma ShortAppend<T>(batches: seq<seq<T>>, batch: seq<T>, buffer: nat)
    ensures Short(batches + [batch], buffer) == Short(batches, buffer) + if |batch| < buffer then 1 else 0
  {
    assert (batches + [batch])[..|batches|] == batches;
  }

  /** Some short batch ends just where the n-th arrival, a tick, comes. */
  ghost predicate EndsAt<T>(batches: seq<seq<T>>, arrivals: seq<Arrival<T>>, n: nat, buffer: nat)
    requires n <= |arrivals|
  {
    exists b :: 0 <= b < |batches| && |batches[b]| < buffer && Flat(batches[..b + 1]) == Items(arrivals[..n])
  }

  /** Every tick has ended a short batch, and nothing else has. */
  ghost predicate Timed<T>(batches: seq<seq<T>>, arrivals: seq<Arrival<T>>, n: nat, buffer: nat)
    requires n <= |arrivals|
  {
    && Short(batches, buffer) == Ticks(arrivals[..n])
    && forall m: nat :: m < n && arrivals[m].Tick? ==> EndsAt(batches, arrivals, m, buffer)
  }

  lemma EndsStay<T>(batches: seq<seq<T>>, batch: seq<T>, arrivals: seq<Arrival<T>>, m: nat, buffer: nat)
    requires m <= |arrivals| && EndsAt(batches, arrivals, m, buffer)
    ensures EndsAt(batches + [batch], arrivals, m, buffer)
  {
    var b :| 0 <= b < |batches| && |batches[b]| < buffer && Flat(batches[..b + 1]) == Items(arrivals[..m]);
    assert (batches + [batch])[..b + 1] == batches[..b + 1] && (batches + [batch])[b] == batches[b];
  }

  /** A full batch, or, at a tick, a short one. */
  lemma TimedNext<T>(batches: seq<seq<T>>, rest: seq<T>, arrivals: seq<Arrival<T>>, n: nat, buffer: nat)
    requires n < |arrivals| && Timed(batches, arrivals, n, buffer)
             && Batched(batches, rest, Items(arrivals[..n]), buffer)
    ensures if arrivals[n].Tick? then Timed(batches + [rest], arrivals, n + 1, buffer)
            else Timed(batches, arrivals, n + 1, buffer)
                 && (|rest| + 1 == buffer ==> Timed(batches + [rest + [arrivals[n].e]], arrivals, n + 1, buffer))
  {
    assert arrivals[..n + 1][..n] == arrivals[..n];
    assert Ticks(arrivals[..n + 1]) == Ticks(arrivals[..n]) + if arrivals[n].Tick? then 1 else 0;
    hide Ticks, Short, Flat, Items, EndsAt;
    var batch := if arrivals[n].Tick? then rest else rest + [arrivals[n].e];
    ShortAppend(batches, batch, buffer);
    forall m: nat | m < n && arrivals[m].Tick? ensures EndsAt(batches + [batch], arrivals, m, buffer) {
      EndsStay(batches, batch, arrivals, m, buffer);
    }
    if arrivals[n].Tick? {
      TickEnds(batches, rest, arrivals, n, buffer);
    }
  }

  lemma TickEnds<T>(batches: seq<seq<T>>, rest: seq<T>, arrivals: seq<Arrival<T>>, n: nat, buffer: nat)
    requires n <= |arrivals| && Batched(batches, rest, Items(arrivals[..n]), buffer)
    ensures EndsAt(batches + [rest], arrivals, n, buffer)
  {
    var all := batches + [rest];
    FlatAppend(batches, rest);
    assert all[..|batches| + 1] == all && all[|batches|] == rest;
  }

  /** Nothing lost, nothing twice, nothing out of order, and no batch or rest too long. */
  ghost predicate Batched<T>(batches: seq<seq<T>>, rest: seq<T>, items: seq<T>, buffer: nat) {
    && Flat(batches) + rest == items
    && |rest| < buffer
    && forall i :: 0 <= i < |batches| ==> |batches[i]| <= buffer
  }

  /** A new item: the buffer is flushed when it is full. */
  lemma ItemKeeps<T>(batches: seq<seq<T>>, rest: seq<T>, items: seq<T>, buffer: nat, e: T)
    requires Batched(batches, rest, items, buffer)
    ensures if |rest| + 1 == buffer then Batched(batches + [rest + [e]], [], items + [e], buffer)
            else Batched(batches, rest + [e], items + [e], buffer)
  {
    FlatAppend(batches, rest + [e]);
    assert Flat(batches) + (rest + [e]) == items + [e];
    assert Flat(batches) + (rest + [e]) + [] == Flat(batches) + (rest + [e]);
  }

  lemma FlushKeeps<T>(batches: seq<seq<T>>, rest: seq<T>, items: seq<T>, buffer: nat)
    requires Batched(batches, rest, items, buffer)
    ensures Batched(batches + [rest], [], items, buffer)
  {
    FlatAppend(batches, rest);
    assert Flat(batches) + rest + [] == Flat(batches) + rest;
  }

  // ---- The pool ----

  type Key = string

  /** A runner's goroutine, which batches what is pushed to its channel; after the channel is closed it flushes
      what it has left and returns. `pushed` is the history of its pushes. */
  datatype Runner<T> = Runner(key: Key, pushed: seq<T>, buf: seq<T>, batches: seq<seq<T>>, closed: bool, returned: bool)
  {
    function Push(e: T, buffer: nat): Runner<T> {
      if |buf| + 1 == buffer
      then this.(pushed := pushed + [e], batches := batches + [buf + [e]], buf := [])
      else this.(pushed := pushed + [e], buf := buf + [e])
    }

    function Flush(): Runner<T> {
      this.(batches := batches + [buf], buf := [])
    }

    /** The rest of the runner after the close of its channel. */
    function Return(): Runner<T> {
      Flush().(returned := true)
    }

    ghost predicate Ok(buffer: nat) {
      Batched(batches, buf, pushed, buffer) && (returned ==> closed && buf == [])
    }
  }

  /** The runner after the first arrivals. */
  function After<T>(key: Key, arrivals: seq<Arrival<T>>, buffer: nat): Runner<T> {
    if arrivals == [] then Runner(key, [], [], [], false, false)
    else
      var front, last := After(key, arrivals[..|arrivals| - 1], buffer), arrivals[|arrivals| - 1];
      if last.Item? then front.Push(last.e, buffer) else front.Flush()
  }

  /** Batcher.Run, to the close of its input: the batches given to the flush function, which are those of a
      runner that takes the same steps one by one. Every tick ends a batch shorter than the buffer, and so does the
      close; all other batches are full. */
  method Run<T>(key: Key, buffer: nat, arrivals: seq<Arrival<T>>) returns (batches: seq<seq<T>>)
    requires buffer >= 1
    ensures batches == After(key, arrivals, buffer).Return().batches
    ensures Flat(batches) == Items(arrivals)
    ensures forall i :: 0 <= i < |batches| ==> |batches[i]| <= buffer
    ensures Short(batches, buffer) == Ticks(arrivals) + 1
    ensures forall m: nat :: m < |arrivals| && arrivals[m].Tick? ==> EndsAt(batches, arrivals, m, buffer)
  {
    hide Flat, Short, Ticks, EndsAt, Timed;
    var buf: seq<T> := [];
    batches := [];
    NoBatches<T>(buffer);
    NoTicks(arrivals, buffer);
    for n := 0 to |arrivals|
      invariant Batched(batches, buf, Items(arrivals[..n]), buffer)
      invariant batches == After(key, arrivals[..n], buffer).batches && buf == After(key, arrivals[..n], buffer).buf
      invariant Timed(batches, arrivals, n, buffer)
    {
      TimedNext(batches, buf, arrivals, n, buffer);
      assert arrivals[..n + 1][..n] == arrivals[..n];
      match arrivals[n]
      case Item(e) =>
        ItemKeeps(batches, buf, Items(arrivals[..n]), buffer, e);
        buf := buf + [e];
        if |buf| == buffer {
          batches := batches + [buf];
          buf := [];
        }
      case Tick =>
        FlushKeeps(batches, buf, Items(arrivals[..n]), buffer);
        batches := batches + [buf];
        buf := [];
    }
    assert arrivals[..|arrivals|] == arrivals;
    FlushKeeps(batches, buf, Items(arrivals), buffer);
    LastFlush(batches, buf, arrivals, buffer);
    batches := batches + [buf];
    assert Flat(batches) + [] == Flat(batches);
  }

  lemma NoTicks<T>(arrivals: seq<Arrival<T>>, buffer: nat)
    ensures Timed<T>([], arrivals, 0, buffer)
  {
  }

  /** The close of the input ends one more short batch. */
  lemma LastFlush<T>(batches: seq<seq<T>>, rest: seq<T>, arrivals: seq<Arrival<T>>, buffer: nat)
    requires Timed(batches, arrivals, |arrivals|, buffer) && |rest| < buffer
    ensures Short(batches + [rest], buffer) == Ticks(arrivals) + 1
    ensures forall m: nat :: m < |arrivals| && arrivals[m].Tick? ==> EndsAt(batches + [rest], arrivals, m, buffer)
  {
    assert arrivals[..|arrivals|] == arrivals;
    ShortAppend(batches, rest, buffer);
    hide EndsAt, Short, Ticks;
    forall m: nat | m < |arrivals| && arrivals[m].Tick? ensures EndsAt(batches + [rest], arrivals, m, buffer) {
      EndsStay(batches, rest, arrivals, m, buffer);
    }
  }

  lemma NoBatches<T>(buffer: nat)
    requires buffer >= 1
    ensures Batched<T>([], [], [], buffer)
  {
  }

  /** Everything pushed under the key, over all its runners in the order of their creation. */
  function Pushed<T>(all: seq<Runner<T>>, k: Key): seq<T> {
    if all == [] then []
    else
      var front, last := all[..|all| - 1], all[|all| - 1];
      if last.key == k then Pushed(front, k) + last.pushed else Pushed(front, k)
  }

  /** Everything flushed under the key, over all its runners in the order of their creation. */
  function Flushed<T>(all: seq<Runner<T>>, k: Key): seq<T> {
    if all == [] then []
    else
      var front, last := all[..|all| - 1], all[|all| - 1];
      if last.key == k then Flushed(front, k) + Flat(last.batches) else Flushed(front, k)
  }

  lemma {:induction false} FlushedAll<T>(all: seq<Runner<T>>, k: Key, buffer: nat)
    requires forall i :: 0 <= i < |all| ==> all[i].Ok(buffer) && all[i].returned
    ensures Flushed(all, k) == Pushed(all, k)
  {
    if all != [] {
      FlushedAll(all[..|all| - 1], k, buffer);
      var last := all[|all| - 1];
      assert last.Ok(buffer) && Flat(last.batches) + [] == Flat(last.batches);
    }
  }

  /** A step of a runner that pushes nothing. */
  lemma {:induction false} PushedSame<T>(all: seq<Runner<T>>, i: nat, r: Runner<T>, k: Key)
    requires i < |all| && r.key == all[i].key && r.pushed == all[i].pushed
    ensures Pushed(all[i := r], k) == Pushed(all, k)
  {
    var n := |all| - 1;
    if i < n {
      PushedSame(all[..n], i, r, k);
      assert all[i := r][..n] == all[..n][i := r];
    } else {
      assert all[i := r][..n] == all[..n];
    }
  }

  /** A push to the last runner of its key. */
  lemma {:induction false} PushedMore<T>(all: seq<Runner<T>>, i: nat, r: Runner<T>, e: T, k: Key)
    requires i < |all| && r.key == all[i].key && r.pushed == all[i].pushed + [e]
    requires forall j :: i < j < |all| ==> all[j].key != r.key
    ensures Pushed(all[i := r], k) == if k == r.key then Pushed(all, k) + [e] else Pushed(all, k)
  {
    var n := |all| - 1;
    if i < n {
      PushedMore(all[..n], i, r, e, k);
      assert all[i := r][..n] == all[..n][i := r];
    } else {
      assert all[i := r][..n] == all[..n];
    }
  }

  /** The runners whose goroutine has not returned. */
  function AtWork<T>(all: seq<Runner<T>>): nat {
    if all == [] then 0 else AtWork(all[..|all| - 1]) + if all[|all| - 1].returned then 0 else 1
  }

  lemma {:induction false} AtWorkChange<T>(all: seq<Runner<T>>, i: nat, r: Runner<T>)
    requires i < |all|
    ensures AtWork(all[i := r]) == AtWork(all) - (if all[i].returned then 0 else 1) + if r.returned then 0 else 1
    ensures !all[i].returned ==> AtWork(all) >= 1
  {
    var n := |all| - 1;
    if i < n {
      AtWorkChange(all[..n], i, r);
      assert all[i := r][..n] == all[..n][i := r];
    } else {
      assert all[i := r][..n] == all[..n];
    }
  }

  lemma NewRunner<T>(all: seq<Runner<T>>, r: Runner<T>, k: Key)
    requires r.pushed == [] && !r.returned
    ensures Pushed(all + [r], k) == Pushed(all, k) && AtWork(all + [r]) == AtWork(all) + 1
  {
    assert (all + [r])[..|all|] == all;
    assert Pushed(all, k) + [] == Pushed(all, k);
  }

  lemma {:induction false} AtWorkIff<T>(all: seq<Runner<T>>)
    ensures AtWork(all) == 0 <==> forall i :: 0 <= i < |all| ==> all[i].returned
  {
    if all != [] {
      var front := all[..|all| - 1];
      AtWorkIff(front);
      assert forall i :: 0 <= i < |front| ==> front[i] == all[i];
    }
  }

  /** The pool: `runners` maps a key to its runner, a position in `all`, which lists every runner ever started; `wg`
      is the counter of the wait group. */
  class Pool<T> {
    const buffer: nat
    var wg: nat
    var runners: map<Key, nat>
    var all: seq<Runner<T>>

    ghost predicate Valid()
      reads this
    {
      && wg == AtWork(all)
      && (forall i :: 0 <= i < |all| ==> all[i].Ok(buffer))
      && (forall k <- runners :: runners[k] < |all| && all[runners[k]].key == k)
      && (forall i :: 0 <= i < |all| ==> (!all[i].closed <==> all[i].key in runners && runners[all[i].key] == i))
      && forall k <- runners, j :: runners[k] < j < |all| ==> all[j].key != k
    }

    constructor (buffer: nat)
      ensures Valid() && this.buffer == buffer && runners == map[] && all == []
    {
      this.buffer := buffer;
      wg := 0;
      runners := map[];
      all := [];
    }

    /** The key's runner, which is started if there is none. */
    method Get(key: Key) returns (i: nat)
      requires Valid() && buffer >= 1
      modifies this
      ensures Valid() && key in runners && i == runners[key] && i < |all| && all[i].key == key && !all[i].closed
      ensures forall k :: Pushed(all, k) == Pushed(old(all), k)
      ensures if key in old(runners) then all == old(all) && runners == old(runners)
              else all == old(all) + [Runner(key, [], [], [], false, false)] && runners == old(runners)[key := i]
    {
      if key in runners {
        return runners[key];
      }
      hide Batched, Pushed, AtWork;
      i := |all|;
      var r: Runner<T> := Runner(key, [], [], [], false, false);
      NoBatches<T>(buffer);
      forall k ensures Pushed(all + [r], k) == Pushed(all, k) {
        NewRunner(all, r, k);
      }
      all := all + [r];
      wg := wg + 1;
      runners := runners[key := i];
    }

    /** A push to a runner of the pool: its channel is open. */
    method Push(i: nat, e: T)
      requires Valid() && i < |all| && !all[i].closed && buffer >= 1
      modifies this`all
      ensures Valid() && all == old(all)[i := old(all)[i].Push(e, buffer)]
      ensures forall k :: Pushed(all, k) == if k == all[i].key then Pushed(old(all), k) + [e] else Pushed(old(all), k)
    {
      hide Batched, Pushed, AtWork;
      var r := all[i].Push(e, buffer);
      AtWorkChange(all, i, r);
      ItemKeeps(all[i].batches, all[i].buf, all[i].pushed, buffer, e);
      forall k ensures Pushed(all[i := r], k) == if k == r.key then Pushed(all, k) + [e] else Pushed(all, k) {
        PushedMore(all, i, r, e, k);
      }
      all := all[i := r];
    }

    /** A step of a runner's own goroutine: the batcher's ticker, even while the channel is closed already, or, once
        it is, the return. */
    method Advance(i: nat, tick: bool)
      requires Valid() && i < |all| && !all[i].returned && (tick || all[i].closed)
      modifies this`all, this`wg
      ensures Valid() && wg == old(wg) - if tick then 0 else 1
      ensures all == old(all)[i := if tick then old(all)[i].Flush() else old(all)[i].Return()]
      ensures forall k :: Pushed(all, k) == Pushed(old(all), k)
    {
      hide Batched, Pushed, AtWork;
      var r := if tick then all[i].Flush() else all[i].Return();
      FlushKeeps(all[i].batches, all[i].buf, all[i].pushed, buffer);
      AtWorkChange(all, i, r);
      forall k ensures Pushed(all[i := r], k) == Pushed(all, k) {
        PushedSame(all, i, r, k);
      }
      if !tick {
        wg := wg - 1;
      }
      all := all[i := r];
    }

    /** Closes the key's runner and forgets it; its goroutine may still be at work. */
    method Remove(key: Key)
      requires Valid()
      modifies this
      ensures Valid() && runners == old(runners) - {key}
      ensures all == if key in old(runners)
                     then old(all)[old(runners)[key] := old(all)[old(runners)[key]].(closed := true)] else old(all)
      ensures forall k :: Pushed(all, k) == Pushed(old(all), k)
    {
      hide Batched, Pushed, AtWork;
      if key in runners {
        var i := runners[key];
        var r := all[i].(closed := true);
        AtWorkChange(all, i, r);
        forall k ensures Pushed(all[i := r], k) == Pushed(all, k) {
          PushedSame(all, i, r, k);
        }
        all := all[i := r];
        runners := runners - {key};
      }
    }

    /** Closes every runner and waits for all goroutines, those of removed runners included, whichever tickers fire
        meanwhile. */
    method Close(steps: seq<(nat, bool)>)
      requires Valid()
      modifies this
      ensures Valid() && runners == map[] && wg == 0
      ensures forall i :: 0 <= i < |all| ==> all[i].returned
      ensures forall i, b :: 0 <= i < |all| && 0 <= b < |all[i].batches| ==> |all[i].batches[b]| <= buffer
      ensures forall k :: Flushed(all, k) == Pushed(old(all), k)
    {
      while runners.Keys != {}
        invariant Valid() && forall k :: Pushed(all, k) == Pushed(old(all), k)
        decreases runners.Keys
      {
        var key :| key in runners;
        Remove(key);
      }
      Wait(steps);
      forall k ensures Flushed(all, k) == Pushed(old(all), k) {
        FlushedAll(all, k, buffer);
      }
    }

    /** `wg.Wait` passes when the counter is zero. Meanwhile runners tick and return in any order: `steps` begins with
        what happens, and after it the runners that are left return. The counter gets to zero because every channel
        is closed; and then no goroutine is left, whether its runner was removed or not. */
    method Wait(steps: seq<(nat, bool)>)
      requires Valid() && runners == map[]
      modifies this`all, this`wg
      ensures Valid() && wg == 0
      ensures forall i :: 0 <= i < |all| ==> all[i].returned
      ensures forall k :: Pushed(all, k) == Pushed(old(all), k)
    {
      for n := 0 to |steps|
        invariant Valid() && forall k :: Pushed(all, k) == Pushed(old(all), k)
      {
        var (i, tick) := steps[n];
        if i < |all| && !all[i].returned {
          Advance(i, tick);
        }
      }
      while wg > 0
        invariant Valid() && forall k :: Pushed(all, k) == Pushed(old(all), k)
        decreases wg
      {
        AtWorkIff(all);
        var i: nat :| i < |all| && !all[i].returned;
        Advance(i, false);
      }
      AtWorkIff(all);
    }
  }

  // ---- The output's main loop ----

  /** An event with its routing key; the idle check, which removes some of the keys; or a step of some runner. */
  datatype Input<T> = Event(key: Key, e: T) | Idle(keys: seq<Key>) | Runs(i: nat, tick: bool)

  function Keyed<T>(inputs: seq<Input<T>>, k: Key): seq<T> {
    if inputs == [] then []
    else
      var front, last := inputs[..|inputs| - 1], inputs[|inputs| - 1];
      if last.Event? && last.key == k then Keyed(front, k) + [last.e] else Keyed(front, k)
  }

  lemma NothingYet<T>(all: seq<Runner<T>>, inputs: seq<Input<T>>, k: Key)
    requires all == []
    ensures Pushed(all, k) == Keyed(inputs[..0], k)
  {
  }

  lemma KeyedNext<T>(inputs: seq<Input<T>>, n: nat, k: Key)
    requires n < |inputs|
    ensures Keyed(inputs[..n + 1], k)
         == if inputs[n].Event? && inputs[n].key == k
            then Keyed(inputs[..n], k) + [inputs[n].e] else Keyed(inputs[..n], k)
  {
    assert inputs[..n + 1][..n] == inputs[..n];
  }

  /** Kafka.Run to the close of the pool. For any events, idle removals and steps of the runners, before the close and
      while it waits: every
      goroutine ever started has returned, no batch is longer than the buffer, and under each key exactly the
      events with that routing key were flushed, in order. */
  method RunOutput<T>(buffer: nat, inputs: seq<Input<T>>, closing: seq<(nat, bool)>) returns (all: seq<Runner<T>>)
    requires buffer >= 1
    ensures forall i :: 0 <= i < |all| ==> all[i].returned
    ensures forall i, b :: 0 <= i < |all| && 0 <= b < |all[i].batches| ==> |all[i].batches[b]| <= buffer
    ensures forall k :: Flushed(all, k) == Keyed(inputs, k)
  {
    hide Pushed, Flushed, Keyed, Batched, Pool.Valid;
    var pool := new Pool<T>(buffer);
    forall k: Key ensures Pushed(pool.all, k) == Keyed(inputs[..0], k) {
      NothingYet(pool.all, inputs, k);
    }
    for n := 0 to |inputs|
      invariant fresh(pool) && pool.Valid() && pool.buffer == buffer
      invariant forall k :: Pushed(pool.all, k) == Keyed(inputs[..n], k)
    {
      forall k: Key { KeyedNext(inputs, n, k); }
      match inputs[n]
      case Event(key, e) =>
        var i := pool.Get(key);
        pool.Push(i, e);
      case Idle(keys) =>
        RemoveAll(pool, keys);
      case Runs(i, tick) =>
        if i < |pool.all| && !pool.all[i].returned && (tick || pool.all[i].closed) {
          pool.Advance(i, tick);
        }
    }
    assert inputs[..|inputs|] == inputs;
    pool.Close(closing);
    all := pool.all;
  }

  method RemoveAll<T>(pool: Pool<T>, keys: seq<Key>)
    requires pool.Valid()
    modifies pool
    ensures pool.Valid() && forall k :: Pushed(pool.all, k) == Pushed(old(pool.all), k)
  {
    for j := 0 to |keys|
      invariant pool.Valid() && forall k :: Pushed(pool.all, k) == Pushed(old(pool.all), k)
    {
      pool.Remove(keys[j]);
    }
  }
}
