/** Starting and stopping one pipeline id (pipeline/service/internal.go): any number of calls of Start and Stop,
    interleaved step by step with each other and with the goroutines that run pipelines (pipeline/pipeline.go). */
module Service {

  import opened Options

  datatype PState = Created | Building | Starting | Running | Stopping | Stopped

  /** A pipeline object: whether its goroutine was launched, its context cancelled, its lock refused by the
      storage. */
  datatype Obj = Obj(state: PState, launched: bool, cancelled: bool, refused: bool)

  /** `pipeUnit`: the pipeline object, the mutex, and whether there is a cancel function. */
  datatype Unit = Unit(p: nat, mu: nat, c: bool)

  datatype Result = Ok | Conflict | NotFound | BuildFailed | NotAcquired

  /** What a call is about to do. */
  datatype Pc =
    | StartNew                // LoadOrStore
    | StartCheck(u: Unit)     // the first look at the state
    | StartLock(u: Unit)
    | StartReload(u: Unit)
    | StartRecheck(u: Unit)
    | StartStore(u: Unit)     // a unit with a new pipeline
    | StartBuild(u: Unit)     // Build, which sets the state Building
    | StartBuilt(u: Unit)     // Build's return
    | StartAcquire(u: Unit)
    | StartCancel(u: Unit)    // the unit again, with its cancel function
    | StartLaunch(u: Unit)
    | StopNew                 // Load
    | StopCheck(u: Unit)
    | StopLock(u: Unit)
    | StopRecheck(u: Unit)
    | StopCancel(u: Unit)
    | StopRelease(u: Unit)
    | Returned(result: Result)

  datatype State = State(objs: seq<Obj>, mus: seq<Option<nat>>, reg: Option<Unit>, calls: seq<Pc>)

  datatype Step = Start | Stop | Call(t: nat, ok: bool) | Goroutine(p: nat)

  predicate Busy(ps: PState) {
    ps.Building? || ps.Starting? || ps.Running? || ps.Stopping?
  }

  /** Whether the call holds the mutex. */
  predicate Critical(pc: Pc) {
    match pc
    case StartReload(_) => true
    case StartRecheck(_) => true
    case StartStore(_) => true
    case StartBuild(_) => true
    case StartBuilt(_) => true
    case StartAcquire(_) => true
    case StartCancel(_) => true
    case StartLaunch(_) => true
    case StopRecheck(_) => true
    case StopCancel(_) => true
    case StopRelease(_) => true
    case _ => false
  }

  predicate HasUnit(pc: Pc) {
    !pc.StartNew? && !pc.StopNew? && !pc.Returned?
  }

  predicate InRange(s: State, u: Unit) {
    u.p < |s.objs| && u.mu < |s.mus|
  }

  predicate Enabled(s: State, st: Step) {
    match st
    case Start => true
    case Stop => true
    case Call(t, _) =>
      && t < |s.calls| && !s.calls[t].Returned? && (HasUnit(s.calls[t]) ==> InRange(s, s.calls[t].u))
      && (s.calls[t].StartLock? || s.calls[t].StopLock? ==> s.mus[s.calls[t].u.mu].None?)
      && (s.calls[t].StartReload? ==> s.reg.Some?)
    case Goroutine(p) =>
      && p < |s.objs| && s.objs[p].launched && Busy(s.objs[p].state)
      && (s.objs[p].state.Running? ==> s.objs[p].cancelled)
  }

  function To(s: State, t: nat, pc: Pc): State
    requires t < |s.calls|
  {
    s.(calls := s.calls[t := pc])
  }

  /** The deferred unlock, and the call's result. */
  function Return(s: State, t: nat, mu: nat, result: Result): State
    requires t < |s.calls| && mu < |s.mus|
  {
    To(s, t, Returned(result)).(mus := s.mus[mu := None])
  }

  function SetState(s: State, p: nat, ps: PState): State
    requires p < |s.objs|
  {
    s.(objs := s.objs[p := s.objs[p].(state := ps)])
  }

  function ApplyStart(s: State, t: nat, ok: bool): State
    requires t < |s.calls| && Enabled(s, Call(t, ok))
  {
    var pc := s.calls[t];
    match pc
    case StartNew =>
      var mine := Unit(|s.objs|, |s.mus|, false);
      var u := if s.reg.Some? then s.reg.value else mine;
      To(s, t, StartCheck(u)).(objs := s.objs + [Obj(Created, false, false, false)], mus := s.mus + [None],
        reg := Some(u))
    case StartCheck(u) => To(s, t, if Busy(s.objs[u.p].state) then Returned(Conflict) else StartLock(u))
    case StartLock(u) => To(s, t, StartReload(u)).(mus := s.mus[u.mu := Some(t)])
    case StartReload(_) => To(s, t, StartRecheck(s.reg.value))
    case StartRecheck(u) =>
      if Busy(s.objs[u.p].state) then Return(s, t, u.mu, Conflict) else To(s, t, StartStore(u))
    case StartStore(u) =>
      var u' := Unit(|s.objs|, u.mu, false);
      To(s, t, StartBuild(u')).(objs := s.objs + [Obj(Created, false, false, false)], reg := Some(u'))
    case StartBuild(u) => To(SetState(s, u.p, Building), t, StartBuilt(u))
    case StartBuilt(u) =>
      if ok then To(s, t, StartAcquire(u)) else Return(SetState(s, u.p, Stopped), t, u.mu, BuildFailed)
    case StartAcquire(u) =>
      if ok then To(s, t, StartCancel(u))
      else Return(s.(objs := s.objs[u.p := s.objs[u.p].(refused := true)]), t, u.mu, NotAcquired)
    case StartCancel(u) => To(s, t, StartLaunch(u.(c := true))).(reg := Some(u.(c := true)))
    case StartLaunch(u) => Return(s.(objs := s.objs[u.p := s.objs[u.p].(launched := true)]), t, u.mu, Ok)
    case _ => s
  }

  function ApplyStop(s: State, t: nat): State
    requires t < |s.calls| && Enabled(s, Call(t, true))
  {
    var pc := s.calls[t];
    match pc
    case StopNew => To(s, t, if s.reg.Some? then StopCheck(s.reg.value) else Returned(NotFound))
    case StopCheck(u) => To(s, t, if s.objs[u.p].state.Running? then StopLock(u) else Returned(Conflict))
    case StopLock(u) => To(s, t, StopRecheck(u)).(mus := s.mus[u.mu := Some(t)])
    case StopRecheck(u) =>
      if s.objs[u.p].state.Running? then To(s, t, StopCancel(u)) else Return(s, t, u.mu, Conflict)
    case StopCancel(u) =>
      To(if u.c then s.(objs := s.objs[u.p := s.objs[u.p].(cancelled := true)]) else s, t, StopRelease(u))
    case StopRelease(u) => Return(s, t, u.mu, Ok)
    case _ => s
  }

  /** Pipeline.Run: the state changes of the goroutine. */
  function Next(ps: PState): PState {
    match ps
    case Building => Starting
    case Starting => Running
    case Running => Stopping
    case _ => Stopped
  }

  predicate OfStop(pc: Pc) {
    pc.StopNew? || pc.StopCheck? || pc.StopLock? || pc.StopRecheck? || pc.StopCancel? || pc.StopRelease?
  }

  function Apply(s: State, st: Step): State
    requires Enabled(s, st)
  {
    match st
    case Start => s.(calls := s.calls + [StartNew])
    case Stop => s.(calls := s.calls + [StopNew])
    case Call(t, ok) => if OfStop(s.calls[t]) then ApplyStop(s, t) else ApplyStart(s, t, ok)
    case Goroutine(p) => SetState(s, p, Next(s.objs[p].state))
  }

  function Initial(): State {
    State([], [], None, [])
  }

  ghost predicate Run(trace: seq<State>, steps: seq<Step>) {
    && |trace| == |steps| + 1 && trace[0] == Initial()
    && forall k :: 0 <= k < |steps| ==> Enabled(trace[k], steps[k]) && trace[k + 1] == Apply(trace[k], steps[k])
  }

  // ---- What every step keeps ----

  predicate Constructing(pc: Pc) {
    pc.StartBuild? || pc.StartBuilt? || pc.StartAcquire? || pc.StartCancel? || pc.StartLaunch?
  }

  /** A call's unit has the registry's mutex, which is held by exactly the call in its critical section. */
  ghost predicate LockOk(s: State, t: nat)
    requires t < |s.calls|
  {
    var pc := s.calls[t];
    && (HasUnit(pc) ==> s.reg.Some? && InRange(s, pc.u) && pc.u.mu == s.reg.value.mu)
    && (s.reg.Some? && InRange(s, s.reg.value) ==> (Critical(pc) <==> s.mus[s.reg.value.mu] == Some(t)))
  }

  /** While a Start is replacing the pipeline, the one it replaces is the registry's and not busy, and the one it
      constructs is the registry's and nobody else's. */
  ghost predicate BuildOk(s: State, t: nat)
    requires t < |s.calls|
  {
    var pc := s.calls[t];
    && (pc.StartRecheck? || pc.StartStore? || Constructing(pc) ==>
          s.reg.Some? && pc.u.p == s.reg.value.p < |s.objs|)
    && (pc.StartStore? ==> !Busy(s.objs[pc.u.p].state))
    && (Constructing(pc) ==>
          && s.objs[pc.u.p] == Obj(if pc.StartBuild? then Created else Building, false, false, false)
          && pc.u == s.reg.value && pc.u.c == pc.StartLaunch?)
  }

  ghost predicate CallOk(s: State, t: nat)
    requires t < |s.calls|
  {
    LockOk(s, t) && BuildOk(s, t)
  }

  ghost predicate InConstruction(s: State, p: nat) {
    exists t :: 0 <= t < |s.calls| && Constructing(s.calls[t]) && s.calls[t].u.p == p
  }

  /** A busy pipeline is the registry's; from its launch on, the registry's unit has the cancel function. */
  ghost predicate ObjOk(s: State, p: nat)
    requires p < |s.objs|
  {
    var o := s.objs[p];
    && (Busy(o.state) ==> s.reg.Some? && s.reg.value.p == p && (o.launched ==> s.reg.value.c))
    && (!o.launched ==> !o.state.Starting? && !o.state.Running? && !o.state.Stopping?)
    && (o.launched ==> !o.state.Created?)
    && (o.refused ==> o.state.Building? && !o.launched)
    && (o.state.Building? && !o.launched && !o.refused ==> InConstruction(s, p))
  }

  ghost predicate Good(s: State) {
    && (s.reg.Some? ==> InRange(s, s.reg.value))
    && (forall m :: 0 <= m < |s.mus| && s.mus[m].Some? ==> s.mus[m].value < |s.calls|)
    && (forall t :: 0 <= t < |s.calls| ==> CallOk(s, t))
    && forall p :: 0 <= p < |s.objs| ==> ObjOk(s, p)
  }

  lemma StopLocks(s: State, x: nat, t: nat)
    requires Good(s) && Enabled(s, Call(x, true)) && t < |s.calls| && OfStop(s.calls[x])
    ensures LockOk(ApplyStop(s, x), t)
  {
    assert CallOk(s, x) && CallOk(s, t);
    hide ObjOk, BuildOk, Good;
  }

  lemma StartLocks(s: State, x: nat, ok: bool, t: nat)
    requires Good(s) && Enabled(s, Call(x, ok)) && t < |s.calls| && !OfStop(s.calls[x])
    ensures LockOk(ApplyStart(s, x, ok), t)
  {
    assert CallOk(s, x) && CallOk(s, t);
    hide ObjOk, BuildOk, CallOk;
    assert s.reg.Some? ==> InRange(s, s.reg.value);
    if s.calls[x].StartNew? {
      NewLocks(s, x, ok, t);
    }
  }

  lemma NewLocks(s: State, x: nat, ok: bool, t: nat)
    requires t < |s.calls| && Enabled(s, Call(x, ok)) && s.calls[x].StartNew? && LockOk(s, x) && LockOk(s, t)
    requires s.reg.Some? ==> InRange(s, s.reg.value)
    ensures LockOk(ApplyStart(s, x, ok), t)
  {
  }

  lemma OwnStop(s: State, t: nat)
    requires Enabled(s, Call(t, true)) && OfStop(s.calls[t])
    ensures BuildOk(ApplyStop(s, t), t)
  {
  }

  lemma OwnStart(s: State, t: nat, ok: bool)
    requires Good(s) && Enabled(s, Call(t, ok)) && !OfStop(s.calls[t])
    ensures BuildOk(ApplyStart(s, t, ok), t)
  {
    assert CallOk(s, t);
    hide ObjOk, Good, CallOk;
  }

  lemma OtherStop(s: State, x: nat, t: nat)
    requires Good(s) && Enabled(s, Call(x, true)) && OfStop(s.calls[x]) && t < |s.calls| && t != x
    ensures BuildOk(ApplyStop(s, x), t)
  {
    assert CallOk(s, x) && CallOk(s, t);
    hide ObjOk, Good;
  }

  /** A Start changes the registry, or a pipeline that is being replaced or constructed, only with the mutex. */
  lemma OtherStart(s: State, x: nat, ok: bool, t: nat)
    requires Good(s) && Enabled(s, Call(x, ok)) && !OfStop(s.calls[x]) && t < |s.calls| && t != x
    ensures BuildOk(ApplyStart(s, x, ok), t)
  {
    assert CallOk(s, x) && CallOk(s, t);
    assert Critical(s.calls[t]) ==> !Critical(s.calls[x]);
    hide ObjOk, Good, LockOk, CallOk;
  }

  lemma LocksStep(s: State, x: nat, ok: bool, t: nat)
    requires Good(s) && Enabled(s, Call(x, ok)) && t < |s.calls|
    ensures LockOk(Apply(s, Call(x, ok)), t)
  {
    hide Good, LockOk, ApplyStart, ApplyStop;
    if OfStop(s.calls[x]) { StopLocks(s, x, t); } else { StartLocks(s, x, ok, t); }
  }

  lemma CallStep(s: State, st: Step, t: nat)
    requires Good(s) && Enabled(s, st) && t < |Apply(s, st).calls|
    ensures CallOk(Apply(s, st), t)
  {
    match st
    case Call(x, ok) =>
      hide Good, LockOk, BuildOk;
      LocksStep(s, x, ok, t);
      hide ApplyStart, ApplyStop;
      if OfStop(s.calls[x]) {
        if x != t { OtherStop(s, x, t); } else { OwnStop(s, t); }
      } else {
        if x != t { OtherStart(s, x, ok, t); } else { OwnStart(s, t, ok); }
      }
    case Goroutine(p) =>
      assert CallOk(s, t) && ObjOk(s, p);
    case _ =>
      if t < |s.calls| {
        assert CallOk(s, t);
      }
  }

  /** A pipeline under construction stays so, unless its constructor has finished. */
  lemma StaysInConstruction(s: State, x: nat, ok: bool, p: nat)
    requires Good(s) && Enabled(s, Call(x, ok)) && InConstruction(s, p)
    ensures InConstruction(Apply(s, Call(x, ok)), p) || (Constructing(s.calls[x]) && s.calls[x].u.p == p)
  {
    hide Good;
    var s' := Apply(s, Call(x, ok));
    var t :| 0 <= t < |s.calls| && Constructing(s.calls[t]) && s.calls[t].u.p == p;
    if t != x {
      assert Constructing(s'.calls[t]) && s'.calls[t].u.p == p;
    }
  }

  lemma ObjStop(s: State, x: nat, p: nat)
    requires Good(s) && Enabled(s, Call(x, true)) && p < |s.objs| && OfStop(s.calls[x])
    ensures ObjOk(ApplyStop(s, x), p)
  {
    assert CallOk(s, x) && ObjOk(s, p);
    if InConstruction(s, p) { StaysInConstruction(s, x, true, p); }
    hide Good, LockOk, BuildOk, InConstruction;
  }

  lemma ObjConstruct(s: State, x: nat, ok: bool, p: nat)
    requires Good(s) && Enabled(s, Call(x, ok)) && p < |s.objs| && Constructing(s.calls[x])
    ensures ObjOk(ApplyStart(s, x, ok), p)
  {
    assert CallOk(s, x) && ObjOk(s, p);
    if InConstruction(s, p) { StaysInConstruction(s, x, ok, p); }
    var s' := ApplyStart(s, x, ok);
    hide Good, LockOk;
    if Constructing(s'.calls[x]) && s'.calls[x].u.p == p {
      assert InConstruction(s', p);
    }
    hide InConstruction;
  }

  lemma ObjStart(s: State, x: nat, ok: bool, p: nat)
    requires Good(s) && Enabled(s, Call(x, ok)) && p < |s.objs| && !OfStop(s.calls[x]) && !Constructing(s.calls[x])
    ensures ObjOk(ApplyStart(s, x, ok), p)
  {
    assert CallOk(s, x) && ObjOk(s, p);
    if InConstruction(s, p) { StaysInConstruction(s, x, ok, p); }
    hide Good, LockOk, InConstruction;
  }

  lemma NewObj(s: State, x: nat, ok: bool, p: nat)
    requires Good(s) && Enabled(s, Call(x, ok)) && |s.objs| <= p < |Apply(s, Call(x, ok)).objs|
    ensures ObjOk(Apply(s, Call(x, ok)), p)
  {
    assert CallOk(s, x);
  }

  lemma ObjStep(s: State, st: Step, p: nat)
    requires Good(s) && Enabled(s, st) && p < |Apply(s, st).objs|
    ensures ObjOk(Apply(s, st), p)
  {
    match st
    case Call(x, ok) =>
      hide Good, ObjOk;
      if p >= |s.objs| { NewObj(s, x, ok, p); }
      else if OfStop(s.calls[x]) { ObjStop(s, x, p); }
      else if Constructing(s.calls[x]) { ObjConstruct(s, x, ok, p); }
      else { ObjStart(s, x, ok, p); }
    case Goroutine(g) =>
      assert ObjOk(s, p) && ObjOk(s, g);
      assert InConstruction(s, p) ==> InConstruction(Apply(s, st), p);
    case _ =>
      assert ObjOk(s, p);
      if InConstruction(s, p) {
        var t :| 0 <= t < |s.calls| && Constructing(s.calls[t]) && s.calls[t].u.p == p;
        assert Apply(s, st).calls[t] == s.calls[t];
      }
  }

  lemma RegistryStep(s: State, t: nat, ok: bool)
    requires Good(s) && Enabled(s, Call(t, ok))
    ensures var s' := Apply(s, Call(t, ok));
            && |s'.calls| == |s.calls| && (s'.reg.Some? ==> InRange(s', s'.reg.value))
            && forall m :: 0 <= m < |s'.mus| && s'.mus[m].Some? ==> s'.mus[m].value < |s'.calls|
  {
    assert CallOk(s, t);
    hide CallOk, ObjOk, BuildOk, LockOk;
    var s' := Apply(s, Call(t, ok));
    assert forall m :: 0 <= m < |s'.mus| ==>
      s'.mus[m] == None || s'.mus[m] == Some(t) || (m < |s.mus| && s'.mus[m] == s.mus[m]);
  }

  lemma GoodStep(s: State, st: Step)
    requires Good(s) && Enabled(s, st)
    ensures Good(Apply(s, st))
  {
    var s' := Apply(s, st);
    if st.Call? { RegistryStep(s, st.t, st.ok); }
    hide CallOk, ObjOk, LockOk, BuildOk, ApplyStart, ApplyStop;
    forall t: nat | t < |s'.calls| ensures CallOk(s', t) {
      CallStep(s, st, t);
    }
    forall p: nat | p < |s'.objs| ensures ObjOk(s', p) {
      ObjStep(s, st, p);
    }
  }

  lemma {:induction false} GoodAlways(trace: seq<State>, steps: seq<Step>, k: nat)
    requires Run(trace, steps) && k < |trace|
    ensures Good(trace[k])
  {
    hide Good;
    if k == 0 {
      GoodInitial();
    } else {
      GoodAlways(trace, steps, k - 1);
      GoodStep(trace[k - 1], steps[k - 1]);
    }
  }

  lemma GoodInitial()
    ensures Good(Initial())
  {
  }

  // ---- What the service promises ----

  /** In every run, for any number of calls: at most one pipeline is in the states from Building to Stopping, and it
      is the registry's. */
  lemma AtMostOneRun(trace: seq<State>, steps: seq<Step>, k: nat, p: nat, q: nat)
    requires Run(trace, steps) && k < |trace| && p < |trace[k].objs| && q < |trace[k].objs|
    requires Busy(trace[k].objs[p].state) && Busy(trace[k].objs[q].state)
    ensures p == q && trace[k].reg.Some? && trace[k].reg.value.p == p
  {
    GoodAlways(trace, steps, k);
    assert ObjOk(trace[k], p) && ObjOk(trace[k], q);
  }

  /** The first unit's mutex is the mutex of every later one, and of every unit that a call works with. */
  lemma {:induction false} OneMutex(trace: seq<State>, steps: seq<Step>, k: nat, n: nat)
    requires Run(trace, steps) && k <= n < |trace| && trace[k].reg.Some?
    ensures trace[n].reg.Some? && trace[n].reg.value.mu == trace[k].reg.value.mu
    ensures forall t :: 0 <= t < |trace[n].calls| && HasUnit(trace[n].calls[t]) ==>
              trace[n].calls[t].u.mu == trace[k].reg.value.mu
    decreases n - k
  {
    hide Good, Apply;
    GoodAlways(trace, steps, n);
    if k < n {
      OneMutex(trace, steps, k, n - 1);
      GoodAlways(trace, steps, n - 1);
      SameMutex(trace[n - 1], steps[n - 1]);
    }
    UnitsShare(trace[n]);
  }

  lemma UnitsShare(s: State)
    requires Good(s) && s.reg.Some?
    ensures forall t :: 0 <= t < |s.calls| && HasUnit(s.calls[t]) ==> s.calls[t].u.mu == s.reg.value.mu
  {
    forall t | 0 <= t < |s.calls| && HasUnit(s.calls[t]) ensures s.calls[t].u.mu == s.reg.value.mu {
      assert CallOk(s, t);
    }
  }

  lemma SameMutex(s: State, st: Step)
    requires Good(s) && Enabled(s, st) && s.reg.Some?
    ensures Apply(s, st).reg.Some? && Apply(s, st).reg.value.mu == s.reg.value.mu
  {
    if st.Call? {
      assert CallOk(s, st.t);
    }
  }

  /** The pipeline was built but nobody is going to launch it, although it counts as busy: exactly after the
      storage has refused its lock. */
  lemma AbandonedIffRefused(trace: seq<State>, steps: seq<Step>, k: nat, p: nat)
    requires Run(trace, steps) && k < |trace| && p < |trace[k].objs|
    ensures var s := trace[k];
            s.objs[p].state.Building? && !s.objs[p].launched && !InConstruction(s, p) <==> s.objs[p].refused
  {
    GoodAlways(trace, steps, k);
    assert ObjOk(trace[k], p);
    if InConstruction(trace[k], p) {
      var t :| 0 <= t < |trace[k].calls| && Constructing(trace[k].calls[t]) && trace[k].calls[t].u.p == p;
      assert CallOk(trace[k], t);
    }
  }

  lemma RefusedStep(s: State, st: Step, p: nat)
    requires Good(s) && Enabled(s, st) && p < |s.objs| && s.objs[p].refused
    ensures p < |Apply(s, st).objs| && Apply(s, st).objs[p].refused
  {
    if st.Call? {
      assert CallOk(s, st.t);
    }
  }

  lemma OnlyRefused(s: State, p: nat)
    requires Good(s) && p < |s.objs| && s.objs[p].refused
    ensures s.objs[p].state.Building? && s.reg.Some? && s.reg.value.p == p
    ensures forall q: nat :: q < |s.objs| && Busy(s.objs[q].state) ==> q == p
  {
    assert ObjOk(s, p);
    forall q: nat | q < |s.objs| && Busy(s.objs[q].state) ensures q == p {
      assert ObjOk(s, q);
    }
  }

  /** From then on nothing is ever built, run or stopped under the id again: the abandoned pipeline stays the
      registry's and stays Building, so it is the only busy one and every Start and Stop sees a conflict. */
  lemma {:induction false} RefusedForever(trace: seq<State>, steps: seq<Step>, k: nat, n: nat, p: nat)
    requires Run(trace, steps) && k <= n < |trace| && p < |trace[k].objs| && trace[k].objs[p].refused
    ensures p < |trace[n].objs| && trace[n].objs[p].refused && trace[n].objs[p].state.Building?
    ensures trace[n].reg.Some? && trace[n].reg.value.p == p
    ensures forall q: nat :: q < |trace[n].objs| && Busy(trace[n].objs[q].state) ==> q == p
    decreases n - k
  {
    hide Good, Apply, Enabled;
    if k < n {
      RefusedForever(trace, steps, k, n - 1, p);
      GoodAlways(trace, steps, n - 1);
      RefusedStep(trace[n - 1], steps[n - 1], p);
    }
    GoodAlways(trace, steps, n);
    OnlyRefused(trace[n], p);
  }

  /** A unit loaded by a Stop while its pipeline's goroutine is at work has the cancel function. */
  lemma LoadedLate(trace: seq<State>, steps: seq<Step>, k: nat, t: nat)
    requires Run(trace, steps) && k < |steps| && steps[k].Call? && steps[k].t == t
    requires t < |trace[k].calls| && trace[k].calls[t].StopNew?
    requires trace[k].reg.Some? && trace[k].reg.value.p < |trace[k].objs|
    requires trace[k].objs[trace[k].reg.value.p].launched && Busy(trace[k].objs[trace[k].reg.value.p].state)
    ensures trace[k + 1].calls[t] == StopCheck(trace[k].reg.value) && trace[k].reg.value.c
  {
    GoodAlways(trace, steps, k);
    assert ObjOk(trace[k], trace[k].reg.value.p);
  }

  /** A Stop on its way with a unit that has the cancel function. */
  ghost predicate Cancels(s: State, t: nat, u: Unit) {
    && t < |s.calls| && u.p < |s.objs|
    && match s.calls[t]
       case StopCheck(v) => v == u
       case StopLock(v) => v == u
       case StopRecheck(v) => v == u
       case StopCancel(v) => v == u
       case StopRelease(_) => s.objs[u.p].cancelled
       case Returned(result) => result.Ok? ==> s.objs[u.p].cancelled
       case _ => false
  }

  lemma CancelsStep(s: State, st: Step, t: nat, u: Unit)
    requires Cancels(s, t, u) && u.c && Enabled(s, st)
    ensures Cancels(Apply(s, st), t, u)
  {
  }

  /** Such a Stop returns without an error only after it has cancelled the pipeline's context. */
  lemma {:induction false} StopCancels(trace: seq<State>, steps: seq<Step>, k: nat, n: nat, t: nat, u: Unit)
    requires Run(trace, steps) && k <= n < |trace| && u.p < |trace[k].objs|
    requires t < |trace[k].calls| && trace[k].calls[t] == StopCheck(u) && u.c
    ensures Cancels(trace[n], t, u)
    decreases n - k
  {
    if k == n {
      assert Cancels(trace[k], t, u);
    }
    hide Cancels, Apply, Enabled;
    if k < n {
      StopCancels(trace, steps, k, n - 1, t, u);
      CancelsStep(trace[n - 1], steps[n - 1], t, u);
    }
  }

  // ---- What later calls return after a refusal ----

  /** About to change something: to replace, construct or cancel a pipeline, or to release its lock. */
  predicate Acts(pc: Pc) {
    pc.StartStore? || Constructing(pc) || pc.StopCancel? || pc.StopRelease?
  }

  /** With a refused pipeline around, no call is about to change anything. */
  ghost predicate Idle(s: State) {
    (exists p :: 0 <= p < |s.objs| && s.objs[p].refused) ==> forall t :: 0 <= t < |s.calls| ==> !Acts(s.calls[t])
  }

  lemma OthersAct(s: State, x: nat, t: nat)
    requires Good(s) && x < |s.calls| && t < |s.calls| && x != t && Constructing(s.calls[x])
    ensures !Acts(s.calls[t])
  {
    assert CallOk(s, x) && CallOk(s, t);
  }

  /** A call's step with a refused pipeline in the registry. */
  lemma IdleCall(s: State, x: nat, ok: bool, p: nat)
    requires Good(s) && Enabled(s, Call(x, ok)) && p < |s.objs| && s.objs[p].refused && !Acts(s.calls[x])
    ensures !Acts(Apply(s, Call(x, ok)).calls[x])
    ensures Apply(s, Call(x, ok)).calls[x].Returned? ==> Apply(s, Call(x, ok)).calls[x].result.Conflict?
  {
    OnlyRefused(s, p);
    assert CallOk(s, x);
  }

  lemma IdleStep(s: State, st: Step)
    requires Good(s) && Idle(s) && Enabled(s, st)
    ensures Idle(Apply(s, st))
  {
    var s' := Apply(s, st);
    if p: nat :| p < |s.objs| && s.objs[p].refused {
      forall t: nat | t < |s'.calls| ensures !Acts(s'.calls[t]) {
        if st.Call? && t == st.t {
          IdleCall(s, t, st.ok, p);
        }
      }
    } else if st.Call? && s.calls[st.t].StartAcquire? {
      forall t: nat | t < |s'.calls| ensures !Acts(s'.calls[t]) || (t == st.t && st.ok) {
        if t != st.t {
          OthersAct(s, st.t, t);
        }
      }
    } else {
      NobodyRefused(s, st);
    }
  }

  lemma NobodyRefused(s: State, st: Step)
    requires Enabled(s, st) && (st.Call? ==> !s.calls[st.t].StartAcquire?)
    requires forall p: nat :: p < |s.objs| ==> !s.objs[p].refused
    ensures forall p: nat :: p < |Apply(s, st).objs| ==> !Apply(s, st).objs[p].refused
  {
  }

  lemma {:induction false} IdleAlways(trace: seq<State>, steps: seq<Step>, k: nat)
    requires Run(trace, steps) && k < |trace|
    ensures Idle(trace[k])
  {
    hide Idle, Good, Apply, Enabled;
    if k == 0 {
      IdleInitial();
    } else {
      IdleAlways(trace, steps, k - 1);
      GoodAlways(trace, steps, k - 1);
      IdleStep(trace[k - 1], steps[k - 1]);
    }
  }

  lemma IdleInitial()
    ensures Idle(Initial())
  {
  }

  lemma ReturnStep(s: State, st: Step, p: nat, t: nat)
    requires Good(s) && Idle(s) && Enabled(s, st) && p < |s.objs| && s.objs[p].refused
    requires t < |Apply(s, st).calls| && Apply(s, st).calls[t].Returned?
    ensures Apply(s, st).calls[t] == Returned(Conflict) || (t < |s.calls| && Apply(s, st).calls[t] == s.calls[t])
  {
    hide Good;
    if st.Call? && st.t == t {
      IdleCall(s, t, st.ok, p);
    }
  }

  /** Every call that has not returned when a lock was refused, and every later one, returns with a conflict, if it
      does return: no Start and no Stop of this id ever succeeds again. */
  lemma {:induction false} RefusedConflicts(trace: seq<State>, steps: seq<Step>, k: nat, n: nat, p: nat, t: nat)
    requires Run(trace, steps) && k <= n < |trace| && p < |trace[k].objs| && trace[k].objs[p].refused
    requires t < |trace[n].calls| && trace[n].calls[t].Returned?
    ensures trace[n].calls[t] == Returned(Conflict)
            || (t < |trace[k].calls| && trace[n].calls[t] == trace[k].calls[t])
    decreases n - k
  {
    hide Good, Idle, Apply, Enabled;
    if k < n {
      RefusedForever(trace, steps, k, n - 1, p);
      GoodAlways(trace, steps, n - 1);
      IdleAlways(trace, steps, n - 1);
      ReturnStep(trace[n - 1], steps[n - 1], p, t);
      if t < |trace[n - 1].calls| && trace[n - 1].calls[t].Returned? {
        RefusedConflicts(trace, steps, k, n - 1, p, t);
      }
    }
  }

  // ---- Exactly what a Stop cancels ----

  /** The Start of pipeline p has stored the unit with the cancel function, and is about to launch. */
  ghost predicate AtLaunch(s: State, p: nat) {
    exists t :: 0 <= t < |s.calls| && s.calls[t].StartLaunch? && s.calls[t].u.p == p
  }

  /** The registry's unit has the cancel function from the step before the launch of its pipeline on. */
  ghost predicate RegOk(s: State) {
    s.reg.Some? && InRange(s, s.reg.value) ==>
      (s.reg.value.c <==> s.objs[s.reg.value.p].launched || AtLaunch(s, s.reg.value.p))
  }

  lemma NotAtLaunch(s: State, p: nat)
    requires Good(s) && p >= |s.objs|
    ensures !AtLaunch(s, p)
  {
    forall t | 0 <= t < |s.calls| && s.calls[t].StartLaunch? ensures s.calls[t].u.p != p {
      assert CallOk(s, t);
    }
  }

  lemma AtLaunchKept(s: State, s': State, x: nat, p: nat)
    requires x < |s.calls| <= |s'.calls| && forall t :: 0 <= t < |s.calls| && t != x ==> s'.calls[t] == s.calls[t]
    requires !s.calls[x].StartLaunch?
    requires forall t :: |s.calls| <= t < |s'.calls| ==> !s'.calls[t].StartLaunch?
    ensures AtLaunch(s', p) <==> AtLaunch(s, p) || (s'.calls[x].StartLaunch? && s'.calls[x].u.p == p)
  {
    if AtLaunch(s, p) {
      var t :| 0 <= t < |s.calls| && s.calls[t].StartLaunch? && s.calls[t].u.p == p;
      assert s'.calls[t].StartLaunch?;
    }
    if AtLaunch(s', p) {
      var t :| 0 <= t < |s'.calls| && s'.calls[t].StartLaunch? && s'.calls[t].u.p == p;
      assert t != x ==> s.calls[t].StartLaunch?;
    }
  }

  lemma RegOkStart(s: State, x: nat, ok: bool)
    requires Good(s) && RegOk(s) && Enabled(s, Call(x, ok)) && !OfStop(s.calls[x])
    ensures RegOk(ApplyStart(s, x, ok))
  {
    assert CallOk(s, x);
    NotAtLaunch(s, |s.objs|);
    var s' := ApplyStart(s, x, ok);
    hide Good, LockOk, AtLaunch;
    if !s.calls[x].StartLaunch? && s'.reg.Some? {
      AtLaunchKept(s, s', x, s'.reg.value.p);
    }
  }

  lemma RegOkStop(s: State, x: nat)
    requires Good(s) && RegOk(s) && Enabled(s, Call(x, true)) && OfStop(s.calls[x])
    ensures RegOk(ApplyStop(s, x))
  {
    assert CallOk(s, x);
    hide Good, LockOk, AtLaunch;
    if s.reg.Some? {
      AtLaunchKept(s, ApplyStop(s, x), x, s.reg.value.p);
    }
  }

  lemma RegOkStep(s: State, st: Step)
    requires Good(s) && RegOk(s) && Enabled(s, st)
    ensures RegOk(Apply(s, st))
  {
    if st.Call? {
      hide RegOk, Good, ApplyStart, ApplyStop;
      if OfStop(s.calls[st.t]) { RegOkStop(s, st.t); } else { RegOkStart(s, st.t, st.ok); }
    } else if s.reg.Some? {
      var s', p := Apply(s, st), s.reg.value.p;
      if AtLaunch(s, p) {
        var t :| 0 <= t < |s.calls| && s.calls[t].StartLaunch? && s.calls[t].u.p == p;
        assert s'.calls[t] == s.calls[t];
      }
    }
  }

  lemma {:induction false} RegOkAlways(trace: seq<State>, steps: seq<Step>, k: nat)
    requires Run(trace, steps) && k < |trace|
    ensures RegOk(trace[k])
  {
    hide RegOk, Good, Apply, Enabled;
    if k == 0 {
      RegOkInitial();
    } else {
      RegOkAlways(trace, steps, k - 1);
      GoodAlways(trace, steps, k - 1);
      RegOkStep(trace[k - 1], steps[k - 1]);
    }
  }

  lemma RegOkInitial()
    ensures RegOk(Initial())
  {
  }

  /** In every run, the unit that a call would load has the cancel function if and only if its pipeline was launched
      or its Start is just about to launch it. */
  lemma CancellableIff(trace: seq<State>, steps: seq<Step>, k: nat)
    requires Run(trace, steps) && k < |trace| && trace[k].reg.Some?
    ensures trace[k].reg.value.p < |trace[k].objs|
    ensures var u := trace[k].reg.value;
            u.c <==> trace[k].objs[u.p].launched || AtLaunch(trace[k], u.p)
  {
    RegOkAlways(trace, steps, k);
    GoodAlways(trace, steps, k);
  }

  /** A step that cancels pipeline p. */
  predicate CancelsNow(s: State, st: Step, p: nat) {
    st.Call? && st.t < |s.calls| && s.calls[st.t].StopCancel? && s.calls[st.t].u.c && s.calls[st.t].u.p == p
  }

  lemma CancelledStep(s: State, st: Step, p: nat)
    requires Good(s) && Enabled(s, st) && p < |Apply(s, st).objs|
    ensures Apply(s, st).objs[p].cancelled <==> (p < |s.objs| && s.objs[p].cancelled) || CancelsNow(s, st, p)
  {
    if st.Call? {
      assert CallOk(s, st.t);
      hide Good, ObjOk, LockOk;
    }
  }

  /** In every run, a pipeline's context is cancelled if and only if some Stop has come to its cancel statement with
      a unit of this pipeline that has the cancel function. */
  lemma {:induction false} CancelledIff(trace: seq<State>, steps: seq<Step>, n: nat, p: nat)
    requires Run(trace, steps) && n < |trace| && p < |trace[n].objs|
    ensures trace[n].objs[p].cancelled <==> exists k :: 0 <= k < n && CancelsNow(trace[k], steps[k], p)
  {
    hide Run, Good, Apply, Enabled, CancelsNow;
    OneStep(trace, steps, n);
    if n > 0 {
      GoodAlways(trace, steps, n - 1);
      CancelledStep(trace[n - 1], steps[n - 1], p);
      if p < |trace[n - 1].objs| {
        CancelledIff(trace, steps, n - 1, p);
      } else {
        NothingCancels(trace, steps, n - 1, p);
      }
    }
  }

  lemma ObjsGrow(s: State, st: Step)
    requires Enabled(s, st)
    ensures |s.objs| <= |Apply(s, st).objs|
  {
  }

  /** What does not exist yet was not cancelled. */
  lemma {:induction false} NothingCancels(trace: seq<State>, steps: seq<Step>, n: nat, p: nat)
    requires Run(trace, steps) && n < |trace| && p >= |trace[n].objs|
    ensures forall k :: 0 <= k < n ==> !CancelsNow(trace[k], steps[k], p)
  {
    if n > 0 {
      ObjsGrow(trace[n - 1], steps[n - 1]);
      NothingCancels(trace, steps, n - 1, p);
    }
  }

  /** A Stop that has loaded the unit u, and whether it has come to its cancel statement. */
  predicate OnItsWay(s: State, t: nat, u: Unit, came: bool) {
    && t < |s.calls|
    && match s.calls[t]
       case StopCheck(v) => v == u
       case StopLock(v) => v == u
       case StopRecheck(v) => v == u
       case StopCancel(v) => v == u
       case StopRelease(_) => came
       case Returned(result) => result.Ok? ==> came
       case _ => false
  }

  predicate Comes(s: State, st: Step, t: nat, u: Unit) {
    st.Call? && st.t == t && t < |s.calls| && s.calls[t] == StopCancel(u)
  }

  lemma WayStep(s: State, st: Step, t: nat, u: Unit, came: bool)
    requires OnItsWay(s, t, u, came) && Enabled(s, st)
    ensures OnItsWay(Apply(s, st), t, u, came || Comes(s, st, t, u))
  {
  }

  ghost predicate Came(trace: seq<State>, steps: seq<Step>, k: nat, n: nat, t: nat, u: Unit)
    requires n < |trace| == |steps| + 1
  {
    exists j :: k <= j < n && Comes(trace[j], steps[j], t, u)
  }

  lemma {:induction false} OnItsWayAlways(trace: seq<State>, steps: seq<Step>, k: nat, n: nat, t: nat, u: Unit)
    requires Run(trace, steps) && k <= n < |trace| && t < |trace[k].calls| && trace[k].calls[t] == StopCheck(u)
    ensures OnItsWay(trace[n], t, u, Came(trace, steps, k, n, t, u))
    decreases n - k
  {
    hide Run, OnItsWay, Comes, Came, Apply, Enabled;
    OneStep(trace, steps, n);
    if k < n {
      OnItsWayAlways(trace, steps, k, n - 1, t, u);
      CameNext(trace, steps, k, n, t, u);
      WayStep(trace[n - 1], steps[n - 1], t, u, Came(trace, steps, k, n - 1, t, u));
    } else {
      StillOnItsWay(trace, steps, k, t, u);
    }
  }

  lemma CameNext(trace: seq<State>, steps: seq<Step>, k: nat, n: nat, t: nat, u: Unit)
    requires k < n < |trace| == |steps| + 1
    ensures Came(trace, steps, k, n, t, u)
       <==> Came(trace, steps, k, n - 1, t, u) || Comes(trace[n - 1], steps[n - 1], t, u)
  {
  }

  lemma StillOnItsWay(trace: seq<State>, steps: seq<Step>, k: nat, t: nat, u: Unit)
    requires k < |trace| == |steps| + 1 && t < |trace[k].calls| && trace[k].calls[t] == StopCheck(u)
    ensures OnItsWay(trace[k], t, u, Came(trace, steps, k, k, t, u))
  {
  }

  /** The exact condition, at the moment a Stop loads the unit: if it later returns without an error, it has itself
      cancelled the pipeline if and only if the pipeline was launched, or about to be, when the unit was loaded. */
  lemma StopStopsIff(trace: seq<State>, steps: seq<Step>, k: nat, n: nat, t: nat)
    requires Run(trace, steps) && k < n < |trace| && t < |trace[k].calls| && trace[k].calls[t].StopNew?
    requires steps[k].Call? && steps[k].t == t && trace[k].reg.Some?
    requires t < |trace[n].calls| && trace[n].calls[t] == Returned(Ok)
    ensures trace[k].reg.value.p < |trace[k].objs|
    ensures var p := trace[k].reg.value.p;
            (exists j :: k < j < n && steps[j].Call? && steps[j].t == t && CancelsNow(trace[j], steps[j], p))
            <==> trace[k].objs[p].launched || AtLaunch(trace[k], p)
  {
    var u := trace[k].reg.value;
    CancellableIff(trace, steps, k);
    assert trace[k + 1].calls[t] == StopCheck(u);
    hide AtLaunch, Apply;
    OnItsWayAlways(trace, steps, k + 1, n, t, u);
    assert Came(trace, steps, k + 1, n, t, u);
    if u.c {
      var j :| k + 1 <= j < n && Comes(trace[j], steps[j], t, u);
      assert CancelsNow(trace[j], steps[j], u.p);
    } else {
      forall j | k < j < n && steps[j].Call? && steps[j].t == t ensures !CancelsNow(trace[j], steps[j], u.p) {
        OnItsWayAlways(trace, steps, k + 1, j, t, u);
      }
    }
  }

  // ---- What the result of a call means ----

  /** Call t takes a step. */
  predicate Takes(s: State, st: Step, t: nat) {
    st.Call? && st.t == t && t < |s.calls|
  }

  /** Whether the step launches the pipeline that call t has built. */
  predicate Launches(s: State, st: Step, t: nat) {
    Takes(s, st, t) && s.calls[t].StartLaunch?
  }

  predicate FailsToBuild(s: State, st: Step, t: nat) {
    Takes(s, st, t) && s.calls[t].StartBuilt? && !st.ok
  }

  predicate IsRefused(s: State, st: Step, t: nat) {
    Takes(s, st, t) && s.calls[t].StartAcquire? && !st.ok
  }

  /** One of the two looks of a Start at the pipeline finds it neither new nor stopped. */
  predicate FindsBusy(s: State, st: Step, t: nat) {
    && Takes(s, st, t) && (s.calls[t].StartCheck? || s.calls[t].StartRecheck?)
    && s.calls[t].u.p < |s.objs|
    && !s.objs[s.calls[t].u.p].state.Created? && !s.objs[s.calls[t].u.p].state.Stopped?
  }

  /** What a Start has met so far is what its result will say. */
  predicate StartSays(pc: Pc, launched: bool, failed: bool, refused: bool, busy: bool) {
    match pc
    case Returned(result) =>
      && !result.NotFound?
      && (launched <==> result.Ok?) && (failed <==> result.BuildFailed?)
      && (refused <==> result.NotAcquired?) && (busy <==> result.Conflict?)
    case _ => !OfStop(pc) && !launched && !failed && !refused && !busy
  }

  lemma StartSaysStep(s: State, st: Step, t: nat, launched: bool, failed: bool, refused: bool, busy: bool)
    requires Enabled(s, st) && t < |s.calls| && StartSays(s.calls[t], launched, failed, refused, busy)
    ensures t < |Apply(s, st).calls|
    ensures StartSays(Apply(s, st).calls[t], launched || Launches(s, st, t), failed || FailsToBuild(s, st, t),
                      refused || IsRefused(s, st, t), busy || FindsBusy(s, st, t))
  {
    if Takes(s, st, t) {
      StartSaysOwn(s, t, st.ok, launched, failed, refused, busy);
      hide Apply, StartSays, FindsBusy, Launches, FailsToBuild, IsRefused;
    } else {
      OthersStay(s, st, t);
      hide Apply, StartSays;
    }
  }

  lemma OthersStay(s: State, st: Step, t: nat)
    requires Enabled(s, st) && t < |s.calls| && !Takes(s, st, t)
    ensures t < |Apply(s, st).calls| && Apply(s, st).calls[t] == s.calls[t]
  {
  }

  lemma StartSaysOwn(s: State, t: nat, ok: bool, launched: bool, failed: bool, refused: bool, busy: bool)
    requires Enabled(s, Call(t, ok)) && StartSays(s.calls[t], launched, failed, refused, busy)
    ensures var s', st := Apply(s, Call(t, ok)), Call(t, ok);
            && t < |s'.calls|
            && StartSays(s'.calls[t], launched || Launches(s, st, t), failed || FailsToBuild(s, st, t),
                         refused || IsRefused(s, st, t), busy || FindsBusy(s, st, t))
  {
    hide ApplyStop;
  }

  ghost predicate Ever(trace: seq<State>, steps: seq<Step>, k: nat, n: nat, t: nat, p: (State, Step, nat) -> bool)
    requires n < |trace| == |steps| + 1
  {
    exists j :: k <= j < n && p(trace[j], steps[j], t)
  }

  lemma EverNext(trace: seq<State>, steps: seq<Step>, k: nat, n: nat, t: nat, p: (State, Step, nat) -> bool)
    requires k < n < |trace| == |steps| + 1
    ensures Ever(trace, steps, k, n, t, p)
       <==> Ever(trace, steps, k, n - 1, t, p) || p(trace[n - 1], steps[n - 1], t)
  {
  }

  lemma {:induction false} StartSaysAlways(trace: seq<State>, steps: seq<Step>, k: nat, n: nat, t: nat)
    requires Run(trace, steps) && k <= n < |trace| && t < |trace[k].calls| && trace[k].calls[t].StartNew?
    ensures t < |trace[n].calls|
    ensures StartSays(trace[n].calls[t], Ever(trace, steps, k, n, t, Launches),
                      Ever(trace, steps, k, n, t, FailsToBuild), Ever(trace, steps, k, n, t, IsRefused),
                      Ever(trace, steps, k, n, t, FindsBusy))
    decreases n - k
  {
    if k < n {
      StartSaysAlways(trace, steps, k, n - 1, t);
      EverNext(trace, steps, k, n, t, Launches);
      EverNext(trace, steps, k, n, t, FailsToBuild);
      EverNext(trace, steps, k, n, t, IsRefused);
      EverNext(trace, steps, k, n, t, FindsBusy);
      hide Apply, Enabled, StartSays, Ever, Launches, FailsToBuild, IsRefused, FindsBusy;
      StartSaysStep(trace[n - 1], steps[n - 1], t, Ever(trace, steps, k, n - 1, t, Launches),
                    Ever(trace, steps, k, n - 1, t, FailsToBuild), Ever(trace, steps, k, n - 1, t, IsRefused),
                    Ever(trace, steps, k, n - 1, t, FindsBusy));
    }
  }

  lemma LaunchedStays(s: State, st: Step, p: nat)
    requires Enabled(s, st) && p < |s.objs| && s.objs[p].launched
    ensures p < |Apply(s, st).objs| && Apply(s, st).objs[p].launched
  {
  }

  lemma StaysUnlaunched(s: State, st: Step, p: nat)
    requires Good(s) && Enabled(s, st) && p < |s.objs| && !s.objs[p].launched && !InConstruction(s, p)
    ensures p < |Apply(s, st).objs| && !Apply(s, st).objs[p].launched
  {
    if st.Call? {
      assert CallOk(s, st.t);
      assert Constructing(s.calls[st.t]) ==> s.calls[st.t].u.p != p;
      hide Good, LockOk, InConstruction;
    }
  }

  /** A pipeline that nobody constructs any more, and that was not launched, will not be. */
  lemma NeverLaunched(s: State, st: Step, p: nat)
    requires Good(s) && Enabled(s, st) && p < |s.objs| && !s.objs[p].launched && !InConstruction(s, p)
    ensures p < |Apply(s, st).objs| && !Apply(s, st).objs[p].launched && !InConstruction(Apply(s, st), p)
  {
    StaysUnlaunched(s, st, p);
    var s' := Apply(s, st);
    hide Good, Apply;
    forall t: nat | t < |s'.calls| && Constructing(s'.calls[t]) ensures s'.calls[t].u.p != p {
      StaysUnconstructed(s, st, p, t);
    }
  }

  lemma StaysUnconstructed(s: State, st: Step, p: nat, t: nat)
    requires Enabled(s, st) && p < |s.objs| && !InConstruction(s, p)
    requires t < |Apply(s, st).calls| && Constructing(Apply(s, st).calls[t])
    ensures Apply(s, st).calls[t].u.p != p
  {
    if t < |s.calls| {
      assert Constructing(s.calls[t]) ==> s.calls[t].u.p != p;
      hide InConstruction;
      if !Takes(s, st, t) {
        OthersStay(s, st, t);
        hide Apply;
      }
    }
  }

  /** What the step that decides a Start's result does to the pipeline it has built. */
  lemma DecidesStep(s: State, st: Step, t: nat)
    requires Good(s) && Enabled(s, st)
    requires Launches(s, st, t) || FailsToBuild(s, st, t) || IsRefused(s, st, t)
    ensures var p := s.calls[t].u.p;
            && p < |s.objs| == |Apply(s, st).objs|
            && Apply(s, st).objs[p].launched == Launches(s, st, t)
            && Apply(s, st).objs[p].state == (if FailsToBuild(s, st, t) then Stopped else Building)
            && (!Launches(s, st, t) ==> !InConstruction(Apply(s, st), p))
  {
    assert CallOk(s, t);
    var s', p := Apply(s, st), s.calls[t].u.p;
    if !Launches(s, st, t) && InConstruction(s', p) {
      var x :| 0 <= x < |s'.calls| && Constructing(s'.calls[x]) && s'.calls[x].u.p == p;
      OthersAct(s, t, x);
    }
  }

  lemma {:induction false} FateAlways(trace: seq<State>, steps: seq<Step>, j: nat, n: nat, p: nat, launched: bool)
    requires Run(trace, steps) && j <= n < |trace| && p < |trace[j].objs| && trace[j].objs[p].launched == launched
    requires !launched ==> !InConstruction(trace[j], p)
    ensures p < |trace[n].objs| && trace[n].objs[p].launched == launched
    ensures !launched ==> !InConstruction(trace[n], p)
    decreases n - j
  {
    hide Good, Apply, Enabled, InConstruction;
    if j < n {
      FateAlways(trace, steps, j, n - 1, p, launched);
      if launched {
        LaunchedStays(trace[n - 1], steps[n - 1], p);
      } else {
        GoodAlways(trace, steps, n - 1);
        NeverLaunched(trace[n - 1], steps[n - 1], p);
      }
    }
  }

  /** What became of the pipeline of a Start that got so far: the result tells whether it was launched, then and for
      good. After a failed build it is Stopped, after a refused lock it stays Building. */
  lemma StartedFate(trace: seq<State>, steps: seq<Step>, j: nat, n: nat, t: nat)
    requires Run(trace, steps) && j < n < |trace|
    requires Launches(trace[j], steps[j], t) || FailsToBuild(trace[j], steps[j], t) || IsRefused(trace[j], steps[j], t)
    ensures var p := trace[j].calls[t].u.p;
            && p < |trace[j + 1].objs| <= |trace[n].objs|
            && trace[n].objs[p].launched == trace[j].calls[t].StartLaunch?
            && trace[j + 1].objs[p].state == if trace[j].calls[t].StartBuilt? then Stopped else Building
  {
    GoodAlways(trace, steps, j);
    DecidesStep(trace[j], steps[j], t);
    hide Good, Apply, Enabled, InConstruction;
    FateAlways(trace, steps, j + 1, n, trace[j].calls[t].u.p, Launches(trace[j], steps[j], t));
    ObjsStay(trace, steps, j + 1, n);
  }

  lemma {:induction false} ObjsStay(trace: seq<State>, steps: seq<Step>, j: nat, n: nat)
    requires Run(trace, steps) && j <= n < |trace|
    ensures |trace[j].objs| <= |trace[n].objs|
    decreases n - j
  {
    if j < n {
      ObjsStay(trace, steps, j, n - 1);
      ObjsGrow(trace[n - 1], steps[n - 1]);
    }
  }

  /** In every run, a Start returns without an error if and only if it has launched its pipeline; with a build error if
      and only if Build has failed; with the storage's error if and only if the storage has refused the lock; and then
      its pipeline is never launched. Otherwise it returns a conflict, if and only if it found a pipeline between
      Building and Stopping. */
  lemma StartResultIff(trace: seq<State>, steps: seq<Step>, k: nat, n: nat, t: nat)
    requires Run(trace, steps) && k < n < |trace| && t < |trace[k].calls| && trace[k].calls[t].StartNew?
    requires t < |trace[n].calls| && trace[n].calls[t].Returned?
    ensures var r := trace[n].calls[t].result;
            && (r.Ok? <==>
                  exists j :: k <= j < n && Takes(trace[j], steps[j], t) && trace[j].calls[t].StartLaunch?
                    && IsLaunched(trace[n], trace[j].calls[t].u.p))
            && (r.BuildFailed? <==>
                  exists j :: k <= j < n && Takes(trace[j], steps[j], t) && trace[j].calls[t].StartBuilt?
                    && !steps[j].ok && !IsLaunched(trace[n], trace[j].calls[t].u.p))
            && (r.NotAcquired? <==>
                  exists j :: k <= j < n && Takes(trace[j], steps[j], t) && trace[j].calls[t].StartAcquire?
                    && !steps[j].ok && !IsLaunched(trace[n], trace[j].calls[t].u.p))
            && (r.Conflict? <==> exists j :: k <= j < n && FindsBusy(trace[j], steps[j], t))
            && !r.NotFound?
  {
    StartSaysAlways(trace, steps, k, n, t);
    forall j: nat | k <= j < n && (Launches(trace[j], steps[j], t) || FailsToBuild(trace[j], steps[j], t)
                                   || IsRefused(trace[j], steps[j], t))
      ensures IsLaunched(trace[n], trace[j].calls[t].u.p) <==> trace[j].calls[t].StartLaunch?
    {
      StartedFate(trace, steps, j, n, t);
    }
    hide Run, Apply, Enabled, FindsBusy;
    if j :| k <= j < n && Takes(trace[j], steps[j], t) && trace[j].calls[t].StartLaunch? {
      assert Launches(trace[j], steps[j], t);
    }
    if j :| k <= j < n && Takes(trace[j], steps[j], t) && trace[j].calls[t].StartBuilt? && !steps[j].ok {
      assert FailsToBuild(trace[j], steps[j], t);
    }
    if j :| k <= j < n && Takes(trace[j], steps[j], t) && trace[j].calls[t].StartAcquire? && !steps[j].ok {
      assert IsRefused(trace[j], steps[j], t);
    }
  }

  predicate IsLaunched(s: State, p: nat) {
    p < |s.objs| && s.objs[p].launched
  }

  /** A Stop finds no pipeline under the id. */
  predicate FindsNone(s: State, st: Step, t: nat) {
    Takes(s, st, t) && s.calls[t].StopNew? && s.reg.None?
  }

  /** One of the two looks of a Stop at the pipeline finds it not running. */
  predicate FindsIdle(s: State, st: Step, t: nat) {
    && Takes(s, st, t) && (s.calls[t].StopCheck? || s.calls[t].StopRecheck?)
    && s.calls[t].u.p < |s.objs| && !s.objs[s.calls[t].u.p].state.Running?
  }

  /** A Stop has passed its cancel statement. */
  predicate Releases(s: State, st: Step, t: nat) {
    Takes(s, st, t) && s.calls[t].StopRelease?
  }

  predicate StopSays(pc: Pc, released: bool, none: bool, idle: bool) {
    match pc
    case Returned(result) =>
      && !result.BuildFailed? && !result.NotAcquired?
      && (released <==> result.Ok?) && (none <==> result.NotFound?) && (idle <==> result.Conflict?)
    case _ => OfStop(pc) && !released && !none && !idle
  }

  lemma StopSaysStep(s: State, st: Step, t: nat, released: bool, none: bool, idle: bool)
    requires Enabled(s, st) && t < |s.calls| && StopSays(s.calls[t], released, none, idle)
    ensures t < |Apply(s, st).calls|
    ensures StopSays(Apply(s, st).calls[t], released || Releases(s, st, t), none || FindsNone(s, st, t),
                     idle || FindsIdle(s, st, t))
  {
    if Takes(s, st, t) {
      StopSaysOwn(s, t, st.ok, released, none, idle);
      hide Apply, StopSays, FindsNone, FindsIdle, Releases;
    } else {
      OthersStay(s, st, t);
      hide Apply, StopSays;
    }
  }

  lemma StopSaysOwn(s: State, t: nat, ok: bool, released: bool, none: bool, idle: bool)
    requires Enabled(s, Call(t, ok)) && StopSays(s.calls[t], released, none, idle)
    ensures var s', st := Apply(s, Call(t, ok)), Call(t, ok);
            && t < |s'.calls|
            && StopSays(s'.calls[t], released || Releases(s, st, t), none || FindsNone(s, st, t),
                        idle || FindsIdle(s, st, t))
  {
    hide ApplyStart;
  }

  lemma {:induction false} StopSaysAlways(trace: seq<State>, steps: seq<Step>, k: nat, n: nat, t: nat)
    requires Run(trace, steps) && k <= n < |trace| && t < |trace[k].calls| && trace[k].calls[t].StopNew?
    ensures t < |trace[n].calls|
    ensures StopSays(trace[n].calls[t], Ever(trace, steps, k, n, t, Releases), Ever(trace, steps, k, n, t, FindsNone),
                     Ever(trace, steps, k, n, t, FindsIdle))
    decreases n - k
  {
    if k < n {
      StopSaysAlways(trace, steps, k, n - 1, t);
      EverNext(trace, steps, k, n, t, Releases);
      EverNext(trace, steps, k, n, t, FindsNone);
      EverNext(trace, steps, k, n, t, FindsIdle);
      hide Apply, Enabled, StopSays, Ever, Releases, FindsNone, FindsIdle;
      StopSaysStep(trace[n - 1], steps[n - 1], t, Ever(trace, steps, k, n - 1, t, Releases),
                   Ever(trace, steps, k, n - 1, t, FindsNone), Ever(trace, steps, k, n - 1, t, FindsIdle));
    }
  }

  /** In every run, a Stop returns without an error if and only if it has passed its cancel statement; it returns that
      there is no such pipeline if and only if it found none; and otherwise a conflict, if and only if it found the
      pipeline not running. */
  lemma StopResultIff(trace: seq<State>, steps: seq<Step>, k: nat, n: nat, t: nat)
    requires Run(trace, steps) && k < n < |trace| && t < |trace[k].calls| && trace[k].calls[t].StopNew?
    requires t < |trace[n].calls| && trace[n].calls[t].Returned?
    ensures var r := trace[n].calls[t].result;
            && (r.Ok? <==> exists j :: k <= j < n && Releases(trace[j], steps[j], t))
            && (r.NotFound? <==> exists j :: k <= j < n && FindsNone(trace[j], steps[j], t))
            && (r.Conflict? <==> exists j :: k <= j < n && FindsIdle(trace[j], steps[j], t))
            && !r.BuildFailed? && !r.NotAcquired?
  {
    StopSaysAlways(trace, steps, k, n, t);
    hide Apply, Enabled, Releases, FindsNone, FindsIdle;
  }

  // ---- The life of a pipeline ----

  /** The state of a launched pipeline after g steps of its goroutine. */
  ghost predicate Lived(o: Obj, g: nat) {
    && (g > 0 ==> o.launched) && g <= 4
    && (o.launched ==>
          match o.state
          case Building => g == 0
          case Starting => g == 1
          case Running => g == 2
          case Stopping => g == 3 && o.cancelled
          case Stopped => g == 4 && o.cancelled
          case Created => false)
  }

  lemma LivedStep(s: State, st: Step, p: nat, g: nat)
    requires Good(s) && Enabled(s, st) && p < |s.objs| && Lived(s.objs[p], g)
    ensures p < |Apply(s, st).objs| && Lived(Apply(s, st).objs[p], g + if st == Goroutine(p) then 1 else 0)
  {
    if st.Call? {
      assert CallOk(s, st.t);
      hide Good, LockOk;
    }
  }

  lemma NewPipeline(s: State, st: Step, p: nat)
    requires Enabled(s, st) && |s.objs| <= p < |Apply(s, st).objs|
    ensures st != Goroutine(p) && Lived(Apply(s, st).objs[p], 0)
  {
  }

  lemma TimesNext(steps: seq<Step>, k: nat, st: Step)
    requires k < |steps|
    ensures multiset(steps[..k + 1])[st] == multiset(steps[..k])[st] + if steps[k] == st then 1 else 0
  {
    assert steps[..k + 1] == steps[..k] + [steps[k]];
  }

  lemma {:induction false} NoStepBefore(trace: seq<State>, steps: seq<Step>, k: nat, p: nat)
    requires Run(trace, steps) && k < |trace| && p >= |trace[k].objs|
    ensures multiset(steps[..k])[Goroutine(p)] == 0
  {
    if k > 0 {
      ObjsGrow(trace[k - 1], steps[k - 1]);
      NoStepBefore(trace, steps, k - 1, p);
      TimesNext(steps, k - 1, Goroutine(p));
    }
  }

  /** In every run, the goroutine of a pipeline runs only once it was launched; it goes from Building through Starting,
      Running and Stopping to Stopped, one state a step, and leaves Running only when its context was cancelled. */
  lemma {:induction false} Lifecycle(trace: seq<State>, steps: seq<Step>, k: nat, p: nat)
    requires Run(trace, steps) && k < |trace| && p < |trace[k].objs|
    ensures var o, g := trace[k].objs[p], multiset(steps[..k])[Goroutine(p)];
            && g <= 4 && (g > 0 ==> o.launched)
            && (o.launched ==> o.state == [Building, Starting, Running, Stopping, Stopped][g])
            && (g >= 3 ==> o.cancelled)
  {
    LivedAlways(trace, steps, k, p);
  }

  /** The k-th state of a run: in the first one there is no pipeline, any other comes from a step. */
  lemma OneStep(trace: seq<State>, steps: seq<Step>, k: nat)
    requires Run(trace, steps) && k < |trace|
    ensures |trace| == |steps| + 1
    ensures if k == 0 then trace[k].objs == []
            else Enabled(trace[k - 1], steps[k - 1]) && trace[k] == Apply(trace[k - 1], steps[k - 1])
  {
  }

  lemma {:induction false} LivedAlways(trace: seq<State>, steps: seq<Step>, k: nat, p: nat)
    requires Run(trace, steps) && k < |trace| && p < |trace[k].objs|
    ensures Lived(trace[k].objs[p], multiset(steps[..k])[Goroutine(p)])
  {
    hide Run, Lived, Apply, Enabled, Good;
    OneStep(trace, steps, k);
    if k > 0 {
      var s, st := trace[k - 1], steps[k - 1];
      TimesNext(steps, k - 1, Goroutine(p));
      if p < |s.objs| {
        LivedAlways(trace, steps, k - 1, p);
        GoodAlways(trace, steps, k - 1);
        LivedStep(s, st, p, multiset(steps[..k - 1])[Goroutine(p)]);
      } else {
        NoStepBefore(trace, steps, k - 1, p);
        NewPipeline(s, st, p);
      }
    }
  }

  // ---- A Stop that stops nothing ----

  lemma Extend(trace: seq<State>, steps: seq<Step>, s: State, st: Step)
    returns (trace': seq<State>, steps': seq<Step>, s': State)
    requires |trace| == |steps| + 1 && Run(trace, steps) && trace[|steps|] == s && Enabled(s, st)
    ensures s' == Apply(s, st) && steps' == steps + [st]
    ensures |trace'| == |steps'| + 1 && Run(trace', steps') && trace'[|steps'|] == s'
  {
    s' := Apply(s, st);
    trace', steps' := trace + [s'], steps + [st];
  }

  /** A Start has the mutex; a Stop has been called. */
  lemma StartsFirst() returns (trace: seq<State>, steps: seq<Step>, s: State)
    ensures |trace| == |steps| + 1 && Run(trace, steps) && trace[|steps|] == s
    ensures s == State([Obj(Created, false, false, false)], [Some(0)], Some(Unit(0, 0, false)),
                       [StartReload(Unit(0, 0, false)), StopNew])
  {
    trace, steps, s := [Initial()], [], Initial();
    hide Run;
    trace, steps, s := Extend(trace, steps, s, Start);
    trace, steps, s := Extend(trace, steps, s, Stop);
    trace, steps, s := Extend(trace, steps, s, Call(0, true));
    assert s == State([Obj(Created, false, false, false)], [None], Some(Unit(0, 0, false)),
                      [StartCheck(Unit(0, 0, false)), StopNew]);
    trace, steps, s := Extend(trace, steps, s, Call(0, true));
    trace, steps, s := Extend(trace, steps, s, Call(0, true));
  }

  /** The Start has stored its new unit; the Stop has loaded it, before the unit gets its cancel function. */
  lemma LoadsEarly() returns (trace: seq<State>, steps: seq<Step>, s: State)
    ensures |trace| == |steps| + 1 && Run(trace, steps) && trace[|steps|] == s
    ensures var u := Unit(1, 0, false);
            s == State([Obj(Created, false, false, false), Obj(Created, false, false, false)], [Some(0)], Some(u),
                       [StartBuild(u), StopCheck(u)])
  {
    trace, steps, s := StartsFirst();
    hide Run;
    trace, steps, s := Extend(trace, steps, s, Call(0, true));
    trace, steps, s := Extend(trace, steps, s, Call(0, true));
    trace, steps, s := Extend(trace, steps, s, Call(0, true));
    trace, steps, s := Extend(trace, steps, s, Call(1, true));
  }

  /** The storage does refuse: the Start returns an error and leaves its pipeline Building. */
  lemma Refusal() returns (trace: seq<State>, steps: seq<Step>, s: State)
    ensures |trace| == |steps| + 1 && Run(trace, steps) && trace[|steps|] == s
    ensures |s.calls| == |s.objs| == 2
    ensures s.calls[0] == Returned(NotAcquired) && s.objs[1] == Obj(Building, false, false, true) && s.mus == [None]
  {
    trace, steps, s := LoadsEarly();
    hide Run;
    trace, steps, s := Extend(trace, steps, s, Call(0, true));
    trace, steps, s := Extend(trace, steps, s, Call(0, true));
    trace, steps, s := Extend(trace, steps, s, Call(0, false));
  }

  /** The Start is about to launch the pipeline. */
  lemma Constructs() returns (trace: seq<State>, steps: seq<Step>, s: State)
    ensures |trace| == |steps| + 1 && Run(trace, steps) && trace[|steps|] == s
    ensures s == State([Obj(Created, false, false, false), Obj(Building, false, false, false)], [Some(0)],
                       Some(Unit(1, 0, true)), [StartLaunch(Unit(1, 0, true)), StopCheck(Unit(1, 0, false))])
  {
    trace, steps, s := LoadsEarly();
    hide Run;
    trace, steps, s := Extend(trace, steps, s, Call(0, true));
    trace, steps, s := Extend(trace, steps, s, Call(0, true));
    trace, steps, s := Extend(trace, steps, s, Call(0, true));
    trace, steps, s := Extend(trace, steps, s, Call(0, true));
  }

  /** The Start returns, and the pipeline runs. */
  lemma StartsMeanwhile() returns (trace: seq<State>, steps: seq<Step>, s: State)
    ensures |trace| == |steps| + 1 && Run(trace, steps) && trace[|steps|] == s
    ensures s == State([Obj(Created, false, false, false), Obj(Running, true, false, false)], [None],
            Some(Unit(1, 0, true)),
                       [Returned(Ok), StopCheck(Unit(1, 0, false))])
  {
    trace, steps, s := Constructs();
    hide Run;
    trace, steps, s := Extend(trace, steps, s, Call(0, true));
    trace, steps, s := Extend(trace, steps, s, Goroutine(1));
    trace, steps, s := Extend(trace, steps, s, Goroutine(1));
  }

  /** The Stop takes the mutex. */
  lemma StopEnters() returns (trace: seq<State>, steps: seq<Step>, s: State)
    ensures |trace| == |steps| + 1 && Run(trace, steps) && trace[|steps|] == s
    ensures s == State([Obj(Created, false, false, false), Obj(Running, true, false, false)], [Some(1)],
            Some(Unit(1, 0, true)),
                       [Returned(Ok), StopRecheck(Unit(1, 0, false))])
  {
    trace, steps, s := StartsMeanwhile();
    hide Run;
    trace, steps, s := Extend(trace, steps, s, Call(1, true));
    trace, steps, s := Extend(trace, steps, s, Call(1, true));
  }

  /** A Stop that loads the unit while Start is still building, and looks at the state when the pipeline runs: it
      returns without an error, the context is not cancelled, and the pipeline goes on running. */
  lemma MissedStop() returns (trace: seq<State>, steps: seq<Step>, s: State)
    ensures |trace| == |steps| + 1 && Run(trace, steps) && trace[|steps|] == s
    ensures s == State([Obj(Created, false, false, false), Obj(Running, true, false, false)], [None],
            Some(Unit(1, 0, true)),
                       [Returned(Ok), Returned(Ok)])
  {
    trace, steps, s := StopEnters();
    hide Run;
    trace, steps, s := Extend(trace, steps, s, Call(1, true));
    trace, steps, s := Extend(trace, steps, s, Call(1, true));
    trace, steps, s := Extend(trace, steps, s, Call(1, true));
  }
}
