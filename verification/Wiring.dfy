/** Building certified networks step by step: creating a channel, and starting a goroutine together with the
    close statements that will wait for it. */
module Wiring {
  import opened Graph

  /** Every goroutine and channel is in order so far, except that the channels of `open` have no reader yet and
      the senders of the channels of `loose` are not covered yet. Mixers of group k have rank stage(k). */
  ghost predicate Wired(net: Net, cert: Certificate, open: set<nat>, loose: set<nat>, stage: nat -> nat) {
    && InRange(net)
    && |net.gs| == |cert.covers| == |cert.grank| && |cert.crank| == |net.chans|
    && (forall g, x :: 0 <= g < |cert.covers| && x in cert.covers[g] ==> x < |net.gs|)
    && (forall g :: 0 <= g < |net.gs| ==> GoroutineFits(net, cert, loose, stage, g))
    && (forall c :: 0 <= c < |net.chans| ==> ChannelFits(net, cert, open, c))
  }

  ghost predicate GoroutineFits(net: Net, cert: Certificate, loose: set<nat>, stage: nat -> nat, g: nat)
    requires InRange(net) && g < |net.gs| == |cert.covers| == |cert.grank| && |cert.crank| == |net.chans|
  {
    && (forall x <- cert.covers[g] :: x == g || (!net.gs[g].kind.Input? && Covered(net, cert, x, net.gs[g].input)))
    && (!net.gs[g].kind.Input? ==> cert.crank[net.gs[g].input] <= cert.grank[g])
    && (forall c <- net.gs[g].outs :: (c in loose || Covered(net, cert, g, c)) && cert.grank[g] < cert.crank[c])
    && (net.gs[g].kind.Sink? <==> net.gs[g].outs == {})
    && (net.gs[g].group.Some? ==> net.gs[g].kind.Plugin? && cert.grank[g] == stage(net.gs[g].group.value))
  }

  ghost predicate ChannelFits(net: Net, cert: Certificate, open: set<nat>, c: nat)
    requires InRange(net) && c < |net.chans| == |cert.crank| && |net.gs| == |cert.grank|
  {
    && |net.chans[c].closes| == 1
    && (forall w <- Closer(net, c) :: w < |net.gs| && cert.grank[w] < cert.crank[c])
    && (c in open || exists g :: Reads(net, g, c))
  }

  lemma WiredIsCertified(net: Net, cert: Certificate, stage: nat -> nat)
    requires Wired(net, cert, {}, {}, stage)
    ensures Certified(net, cert)
  {
    forall g: nat | g < |net.gs| ensures GoroutineOk(net, cert, g) {
      assert GoroutineFits(net, cert, {}, stage, g);
      forall h: nat | h < |net.gs| && net.gs[h].group == net.gs[g].group && net.gs[g].group.Some?
        ensures cert.grank[h] == cert.grank[g]
      {
        assert GoroutineFits(net, cert, {}, stage, h);
      }
    }
    forall c: nat | c < |net.chans| ensures ChannelOk(net, cert, c) {
      assert ChannelFits(net, cert, {}, c);
    }
  }

  /** More goroutines for the close of a channel to wait for. */
  function Waiting(ch: Channel, waits: set<nat>): Channel {
    if |ch.closes| == 1 then ch.(closes := [ch.closes[0] + waits]) else ch
  }

  /** A new goroutine, which the close statements of the channels of `waits` will wait for. */
  function WithGoroutine(net: Net, g: Goroutine, waits: set<nat>): Net {
    net.(gs := net.gs + [g],
         chans := seq(|net.chans|, c requires 0 <= c < |net.chans| =>
                        if c in waits then Waiting(net.chans[c], {|net.gs|}) else net.chans[c]))
  }

  /** A new channel, whose close statement waits for nothing yet. */
  function WithChannel(net: Net, capacity: nat): Net {
    net.(chans := net.chans + [Channel(capacity, [{}])])
  }

  lemma CoveredStays(net: Net, cert: Certificate, net': Net, cert': Certificate, x: nat, c: nat)
    requires Covered(net, cert, x, c) && cert.covers <= cert'.covers && Closer(net, c) <= Closer(net', c)
    ensures Covered(net', cert', x, c)
  {
    var w :| w in Closer(net, c) && w < |cert.covers| && x in cert.covers[w];
    assert cert'.covers[w] == cert.covers[w];
  }

  lemma AddChannel(net: Net, cert: Certificate, open: set<nat>, loose: set<nat>, stage: nat -> nat,
                   capacity: nat, rank: nat)
    requires Wired(net, cert, open, loose, stage)
    ensures Wired(WithChannel(net, capacity), cert.(crank := cert.crank + [rank]), open + {|net.chans|}, loose, stage)
  {
    var net', cert', open' := WithChannel(net, capacity), cert.(crank := cert.crank + [rank]), open + {|net.chans|};
    assert forall c :: 0 <= c < |net.chans| ==> Closer(net', c) == Closer(net, c);
    assert InRange(net');
    forall g: nat | g < |net.gs| ensures GoroutineFits(net', cert', loose, stage, g) {
      assert GoroutineFits(net, cert, loose, stage, g);
      forall x <- cert.covers[g] | x != g ensures Covered(net', cert', x, net.gs[g].input) {
        CoveredStays(net, cert, net', cert', x, net.gs[g].input);
      }
      forall c <- net.gs[g].outs | c !in loose ensures Covered(net', cert', g, c) {
        CoveredStays(net, cert, net', cert', g, c);
      }
    }
    forall c: nat | c < |net'.chans| ensures ChannelFits(net', cert', open', c) {
      if c < |net.chans| {
        assert ChannelFits(net, cert, open, c);
        if g: nat :| Reads(net, g, c) { assert Reads(net', g, c); }
      }
    }
  }

  /** What a new goroutine must meet. */
  ghost predicate CanAdd(net: Net, cert: Certificate, loose: set<nat>, stage: nat -> nat,
                         g: Goroutine, waits: set<nat>, cover: set<nat>, rank: nat)
    requires |cert.crank| == |net.chans|
  {
    && (!g.kind.Input? ==> g.input < |cert.crank| && cert.crank[g.input] <= rank)
    && (forall c <- g.outs + waits :: c < |cert.crank| && rank < cert.crank[c])
    && (forall c <- g.outs :: c in waits || c in loose)
    && (g.kind.Sink? <==> g.outs == {})
    && (g.group.Some? ==> g.kind.Plugin? && rank == stage(g.group.value))
    && |net.gs| in cover
    && (forall x <- cover :: x == |net.gs| || (x < |net.gs| && !g.kind.Input? && Covered(net, cert, x, g.input)))
  }

  /** The network after the start of goroutine g, whose return the closes of `waits` then wait for too. */
  ghost predicate Started(net: Net, cert: Certificate, g: Goroutine, waits: set<nat>, cover: set<nat>, rank: nat,
                          net': Net, cert': Certificate)
  {
    && net'.gs == net.gs + [g] && |net'.chans| == |net.chans| && InRange(net')
    && cert' == cert.(covers := cert.covers + [cover], grank := cert.grank + [rank])
    && forall c: nat :: c < |net.chans| ==>
         |net'.chans[c].closes| == 1 && Closer(net', c) == Closer(net, c) + if c in waits then {|net.gs|} else {}
  }

  lemma StartedIs(net: Net, cert: Certificate, open: set<nat>, loose: set<nat>, stage: nat -> nat,
                  g: Goroutine, waits: set<nat>, cover: set<nat>, rank: nat)
    requires Wired(net, cert, open, loose, stage) && CanAdd(net, cert, loose, stage, g, waits, cover, rank)
    ensures Started(net, cert, g, waits, cover, rank, WithGoroutine(net, g, waits),
                    cert.(covers := cert.covers + [cover], grank := cert.grank + [rank]))
  {
    var net' := WithGoroutine(net, g, waits);
    forall c: nat | c < |net.chans|
      ensures |net'.chans[c].closes| == 1
      ensures Closer(net', c) == Closer(net, c) + if c in waits then {|net.gs|} else {}
    {
      assert ChannelFits(net, cert, open, c);
    }
  }

  lemma OldGoroutine(net: Net, cert: Certificate, open: set<nat>, loose: set<nat>, stage: nat -> nat,
                     g: Goroutine, waits: set<nat>, cover: set<nat>, rank: nat, net': Net, cert': Certificate, h: nat)
    requires Wired(net, cert, open, loose, stage) && Started(net, cert, g, waits, cover, rank, net', cert')
    requires h < |net.gs|
    ensures GoroutineFits(net', cert', loose, stage, h)
  {
    assert GoroutineFits(net, cert, loose, stage, h);
    hide Wired;
    forall x <- cert.covers[h] | x != h ensures Covered(net', cert', x, net.gs[h].input) {
      CoveredStays(net, cert, net', cert', x, net.gs[h].input);
    }
    forall c <- net.gs[h].outs | c !in loose ensures Covered(net', cert', h, c) {
      CoveredStays(net, cert, net', cert', h, c);
    }
  }

  lemma NewGoroutine(net: Net, cert: Certificate, open: set<nat>, loose: set<nat>, stage: nat -> nat,
                     g: Goroutine, waits: set<nat>, cover: set<nat>, rank: nat, net': Net, cert': Certificate)
    requires Wired(net, cert, open, loose, stage) && CanAdd(net, cert, loose, stage, g, waits, cover, rank)
    requires Started(net, cert, g, waits, cover, rank, net', cert')
    ensures GoroutineFits(net', cert', loose, stage, |net.gs|)
  {
    var n := |net.gs|;
    assert |cert.covers| == |cert.grank| == n && |cert.crank| == |net.chans|;
    hide Wired;
    forall x <- cover | x != n ensures Covered(net', cert', x, g.input) {
      CoveredStays(net, cert, net', cert', x, g.input);
    }
    forall c <- g.outs | c !in loose ensures Covered(net', cert', n, c) {
      assert n in Closer(net', c) && n in cert'.covers[n];
    }
  }

  lemma OldChannel(net: Net, cert: Certificate, open: set<nat>, loose: set<nat>, stage: nat -> nat,
                   g: Goroutine, waits: set<nat>, cover: set<nat>, rank: nat, net': Net, cert': Certificate, c: nat)
    requires Wired(net, cert, open, loose, stage) && CanAdd(net, cert, loose, stage, g, waits, cover, rank)
    requires Started(net, cert, g, waits, cover, rank, net', cert') && c < |net.chans|
    ensures ChannelFits(net', cert', if g.kind.Input? then open else open - {g.input}, c)
  {
    assert ChannelFits(net, cert, open, c);
    hide Wired;
    if r: nat :| Reads(net, r, c) {
      assert Reads(net', r, c);
    } else if !g.kind.Input? && c == g.input {
      assert Reads(net', |net.gs|, c);
    }
  }

  lemma AddGoroutine(net: Net, cert: Certificate, open: set<nat>, loose: set<nat>, stage: nat -> nat,
                     g: Goroutine, waits: set<nat>, cover: set<nat>, rank: nat)
    requires Wired(net, cert, open, loose, stage) && CanAdd(net, cert, loose, stage, g, waits, cover, rank)
    ensures Wired(WithGoroutine(net, g, waits),
                  cert.(covers := cert.covers + [cover], grank := cert.grank + [rank]),
                  if g.kind.Input? then open else open - {g.input}, loose, stage)
  {
    var net', cert' := WithGoroutine(net, g, waits),
      cert.(covers := cert.covers + [cover], grank := cert.grank + [rank]);
    StartedIs(net, cert, open, loose, stage, g, waits, cover, rank);
    hide GoroutineFits, ChannelFits, WithGoroutine;
    forall h: nat | h <= |net.gs| ensures GoroutineFits(net', cert', loose, stage, h) {
      if h < |net.gs| {
        OldGoroutine(net, cert, open, loose, stage, g, waits, cover, rank, net', cert', h);
      } else {
        NewGoroutine(net, cert, open, loose, stage, g, waits, cover, rank, net', cert');
      }
    }
    var open' := if g.kind.Input? then open else open - {g.input};
    forall c: nat | c < |net.chans| ensures ChannelFits(net', cert', open', c) {
      OldChannel(net, cert, open, loose, stage, g, waits, cover, rank, net', cert', c);
    }
  }

  /** A loose channel is tight once all its senders are covered. */
  lemma Tighten(net: Net, cert: Certificate, open: set<nat>, loose: set<nat>, stage: nat -> nat, c: nat)
    requires Wired(net, cert, open, loose, stage)
    requires forall g :: 0 <= g < |net.gs| && c in net.gs[g].outs ==> Covered(net, cert, g, c)
    ensures Wired(net, cert, open, loose - {c}, stage)
  {
    forall g: nat | g < |net.gs| ensures GoroutineFits(net, cert, loose - {c}, stage, g) {
      assert GoroutineFits(net, cert, loose, stage, g);
    }
  }
}
