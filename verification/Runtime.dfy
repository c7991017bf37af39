/**
  The runtime: its lifecycle, the registry of spawned tasks, and the shutdown that drains them before
  the two drivers and the native layer go down.

  Each driver appears as its park gate; what it does between its sections is modelled elsewhere.
 */
module Runtime {
  import opened Prelude
  import T = Task
  import G = ParkGate

  type Id = nat

  datatype Lifecycle = Running | Closing | Closed

  /**
    Where the owner thread is in `shutdown_inner`; `todo` are the tasks it has yet to abort.  A native
    call that fails on the way down leaves the lifecycle closing, and the owner may call again.
   */
  datatype ShutPc =
    NotCalled | Aborting(todo: set<Id>) | Waiting | StoppingUring | StoppingTimer | NativeDown | Finished | Failed

  datatype Driver = Driver(gate: G.Gate, native: G.Native, at: G.Position)

  datatype Which = Uring | Timer

  /** `tasks` holds every task a spawn has made, `registry` the identifiers under the state lock. */
  datatype Runtime<V> = Runtime(
    lifecycle: Lifecycle, registry: set<Id>, tasks: map<Id, T.Task<V>>, nextId: Id, shut: ShutPc,
    uring: Driver, timer: Driver)

  datatype GateStep = Notify | TryPark(m: G.Mode) | Return(woken: bool) | Wake | End | Retire

  datatype Event<V> =
    | Spawn(submitted: bool)
    | TaskStep(id: Id, e: T.Event<V>)
    | Complete(id: Id)
    | BeginShutdown
    | AbortOne(id: Id)
    | AbortsDone
    | SeeDrained
    | SeeUringDone
    | SeeTimerDone
    | FinishShutdown
    | FailShutdown
    | DriverStep(w: Which, g: GateStep)

  datatype Outcome<+S> = Ok(value: S) | Fatal(reason: string)

  /** The core can be upgraded at least until the native layer goes down. */
  predicate CoreSeen<V>(r: Runtime<V>, e: T.Event<V>) {
    r.shut != Finished && (e.Wake? || e.Abort? || e.Upgrade?) ==> e.runtime
  }

  predicate GateEnabled(d: Driver, g: GateStep) {
    match g
    case Notify => true
    case TryPark(m) => d.at == G.Awake
    case Return(woken) => d.at.Blocking? && G.CanReturn(d.at.m, d.native, woken)
    case Wake => d.at == G.Back
    case End => d.at == G.Awake
    case Retire => d.at == G.Ended
  }

  function DriverOf<V>(r: Runtime<V>, w: Which): Driver {
    if w == Uring then r.uring else r.timer
  }

  predicate Enabled<V>(r: Runtime<V>, e: Event<V>) {
    match e
    case Spawn(_) => true
    case TaskStep(id, te) =>
      id in r.tasks && T.Enabled(r.tasks[id], te) && !te.Spawn? && !te.Remove? && CoreSeen(r, te)
    case Complete(id) => id in r.tasks && T.Enabled(r.tasks[id], T.Remove)
    case BeginShutdown => r.shut in {NotCalled, Failed, Finished}
    case AbortOne(id) => r.shut.Aborting? && id in r.shut.todo
    case AbortsDone => r.shut == Aborting({})
    case SeeDrained => r.shut == Waiting && r.registry == {}
    case SeeUringDone => r.shut == StoppingUring && r.uring.at == G.Gone
    case SeeTimerDone => r.shut == StoppingTimer && r.timer.at == G.Gone
    case FinishShutdown => r.shut == NativeDown
    case FailShutdown =>
      (r.shut == StoppingUring && r.uring.at == G.Gone) || (r.shut == StoppingTimer && r.timer.at == G.Gone) || r.shut == NativeDown
    case DriverStep(w, g) => GateEnabled(DriverOf(r, w), g)
  }

  function PutTask<V>(r: Runtime<V>, id: Id, o: T.Outcome<T.Task<V>>): Outcome<Runtime<V>> {
    match o
    case Ok(t) => Ok(r.(tasks := r.tasks[id := t]))
    case Fatal(why) => Fatal(why)
  }

  /** `spawn_on`: the state lock is held from the lifecycle check to the submission. */
  function SpawnStep<V>(r: Runtime<V>, submitted: bool): Outcome<Runtime<V>> {
    if r.lifecycle != Running then Ok(r)
    else
      PutTask(r.(nextId := r.nextId + 1, registry := if submitted then r.registry + {r.nextId} else r.registry),
              r.nextId, T.Apply(T.New(), T.Spawn(submitted)))
  }

  function GateApply(d: Driver, g: GateStep): G.Outcome<Driver>
    requires GateEnabled(d, g)
  {
    match g
    case Notify =>
      (match G.Notify(d.gate, d.native)
       case Done(r) => G.Done(Driver(r.0, r.1, d.at))
       case Abort(why) => G.Abort(why))
    case TryPark(m) =>
      var (gate, blocked) := G.TryPark(d.gate, m);
      G.Done(Driver(gate, d.native, if blocked then G.Blocking(m) else G.Awake))
    case Return(woken) => G.Done(Driver(d.gate, G.Return(d.at.m, d.native, woken), G.Back))
    case Wake => G.Done(Driver(d.gate.(phase := G.Running), d.native, G.Awake))
    case End => G.Done(Driver(d.gate.(phase := G.Terminal), d.native, G.Ended))
    case Retire =>
      (match G.Retire(d.gate)
       case Done(gate) => G.Done(Driver(gate, d.native, G.Gone))
       case Abort(why) => G.Abort(why))
  }

  function PutDriver<V>(r: Runtime<V>, w: Which, o: G.Outcome<Driver>): Outcome<Runtime<V>> {
    match o
    case Done(d) => Ok(if w == Uring then r.(uring := d) else r.(timer := d))
    case Abort(why) => Fatal(why)
  }

  function Apply<V>(r: Runtime<V>, e: Event<V>): Outcome<Runtime<V>>
    requires Enabled(r, e)
  {
    match e
    case Spawn(submitted) => SpawnStep(r, submitted)
    case TaskStep(id, te) => PutTask(r, id, T.Apply(r.tasks[id], te))
    case Complete(id) => PutTask(r.(registry := r.registry - {id}), id, T.Apply(r.tasks[id], T.Remove))
    case BeginShutdown => if r.lifecycle == Closed then Ok(r) else Ok(r.(lifecycle := Closing, shut := Aborting(r.registry)))
    case AbortOne(id) =>
      if id !in r.tasks || r.tasks[id].pc.Unspawned? then Fatal("registered task missing")
      else PutTask(r.(shut := Aborting(r.shut.todo - {id})), id, T.Apply(r.tasks[id], T.Abort(true)))
    case AbortsDone => Ok(r.(shut := Waiting))
    case SeeDrained => Ok(r.(shut := StoppingUring))
    case SeeUringDone => Ok(r.(shut := StoppingTimer))
    case SeeTimerDone => Ok(r.(shut := NativeDown))
    case FinishShutdown => Ok(r.(shut := Finished, lifecycle := Closed))
    case FailShutdown => Ok(r.(shut := Failed))
    case DriverStep(w, g) => PutDriver(r, w, GateApply(DriverOf(r, w), g))
  }

  function Init<V>(): Runtime<V> {
    var d := Driver(G.Gate(G.Running, false, true), G.Native(0, 0), G.Awake);
    Runtime(Running, {}, map[], 0, NotCalled, d, d)
  }

  // ----- The invariant ------------------------------------------------------------------------------------

  /** The native layer still knows the task. */
  predicate Outstanding<V>(t: T.Task<V>) {
    !t.pc.Unspawned? && !t.pc.Unspawnable? && !t.pc.Removed?
  }

  ghost predicate RegistryOk<V>(r: Runtime<V>) {
    && (forall id | id in r.tasks :: id < r.nextId && T.Inv(r.tasks[id]) && !r.tasks[id].pc.Unspawned?)
    && (forall id :: id in r.registry <==> id in r.tasks && Outstanding(r.tasks[id]))
  }

  /** Whoever is still live has been asked to stop, or is on the list. */
  ghost predicate AskedOk<V>(r: Runtime<V>) {
    && (r.shut.Aborting? ==> r.shut.todo <= r.tasks.Keys)
    && (r.shut != NotCalled ==>
          forall id | id in r.registry && id in r.tasks ::
            r.tasks[id].gate.cancelRequested || r.tasks[id].gate.phase != T.Live || (r.shut.Aborting? && id in r.shut.todo))
  }

  predicate DriversFirst(shut: ShutPc) {
    shut in {StoppingUring, StoppingTimer, NativeDown, Finished, Failed}
  }

  ghost predicate ShutOk<V>(r: Runtime<V>) {
    && (r.lifecycle == Running <==> r.shut == NotCalled)
    && (r.lifecycle == Closed <==> r.shut == Finished)
    && (DriversFirst(r.shut) ==> r.registry == {})
    && (r.shut in {StoppingTimer, NativeDown, Finished, Failed} ==> r.uring.at == G.Gone)
    && (r.shut in {NativeDown, Finished} ==> r.timer.at == G.Gone)
    && G.GateOk(r.uring.gate, r.uring.at, r.uring.native.pause)
    && G.GateOk(r.timer.gate, r.timer.at, r.timer.native.pause)
  }

  ghost predicate Inv<V>(r: Runtime<V>) {
    RegistryOk(r) && AskedOk(r) && ShutOk(r)
  }

  lemma InitInv<V>()
    ensures Inv(Init<V>())
  {
  }

  // ----- Preservation -------------------------------------------------------------------------------------

  lemma GateStepOk(d: Driver, g: GateStep)
    requires GateEnabled(d, g) && G.GateOk(d.gate, d.at, d.native.pause)
    ensures GateApply(d, g).Done?
    ensures var c := GateApply(d, g).value;
            && G.GateOk(c.gate, c.at, c.native.pause)
            && (d.at == G.Gone ==> c.at == G.Gone && c.native == d.native)
  {
  }

  /** One task takes one step that neither registers nor removes it, and does not undo a cancellation. */
  lemma TaskStepOk<V>(t: T.Task<V>, e: T.Event<V>)
    requires T.Inv(t) && T.Enabled(t, e) && !t.pc.Unspawned?
    ensures T.Apply(t, e).Ok? && T.Inv(T.Apply(t, e).value)
    ensures var u := T.Apply(t, e).value;
            && Follows(t, u, e.Remove?)
            && (e.Abort? && e.runtime ==> u.gate.cancelRequested || u.gate.phase != T.Live)
  {
    hide T.Inv;
    T.Kept(t, e);
    TaskGate(t);
    hide T.GateOk;
    if T.Outside(e) {
      FollowsOutside(t, e);
    } else {
      FollowsInside(t, e);
    }
  }

  lemma TaskGate<V>(t: T.Task<V>)
    requires T.Inv(t)
    ensures T.GateOk(t)
  {
    hide T.GateOk;
  }

  lemma FollowsOutside<V>(t: T.Task<V>, e: T.Event<V>)
    requires T.Enabled(t, e) && T.Apply(t, e).Ok? && T.Outside(e) && !t.pc.Unspawned?
    ensures Follows(t, T.Apply(t, e).value, false)
    ensures e.Abort? && e.runtime ==> T.Apply(t, e).value.gate.cancelRequested || T.Apply(t, e).value.gate.phase != T.Live
  {
  }

  lemma FollowsInside<V>(t: T.Task<V>, e: T.Event<V>)
    requires T.GateOk(t) && T.Enabled(t, e) && T.Apply(t, e).Ok? && !T.Outside(e) && !t.pc.Unspawned?
    ensures Follows(t, T.Apply(t, e).value, e.Remove?)
  {
  }

  lemma SpawnTask<V>(submitted: bool)
    ensures var o := T.Apply(T.New<V>(), T.Spawn(submitted));
            o.Ok? && T.Inv(o.value) && !o.value.pc.Unspawned? && (Outstanding(o.value) <==> submitted)
  {
    T.NewInv<V>();
    T.Kept(T.New<V>(), T.Spawn(submitted));
  }

  /**
    A spawn takes one task into the registry, under an identifier never used before, exactly if the
    runtime is running and the native layer takes the task; no other task is touched.
   */
  lemma KeptSpawn<V>(r: Runtime<V>, submitted: bool)
    requires Inv(r)
    ensures SpawnStep(r, submitted).Ok? && Inv(SpawnStep(r, submitted).value)
    ensures var m := SpawnStep(r, submitted).value;
            && m.registry == r.registry + (if r.lifecycle == Running && submitted then {r.nextId} else {})
            && r.nextId !in r.tasks && r.nextId !in r.registry
            && (forall id | id in r.tasks :: id in m.tasks && m.tasks[id] == r.tasks[id])
            && (r.nextId in m.tasks <==> r.lifecycle == Running)
  {
    SpawnTask<V>(submitted);
    hide T.Inv;
    hide T.Apply;
    hide Outstanding;
  }

  /** A step that keeps a task where the registry says it is, or takes it out. */
  predicate Follows<V>(t: T.Task<V>, u: T.Task<V>, removed: bool) {
    && !u.pc.Unspawned? && (Outstanding(u) <==> Outstanding(t) && !removed)
    && (t.gate.cancelRequested || t.gate.phase != T.Live ==> u.gate.cancelRequested || u.gate.phase != T.Live)
  }

  lemma RegistryTask<V>(r: Runtime<V>, id: Id, u: T.Task<V>, removed: bool, shut: ShutPc)
    requires RegistryOk(r) && id in r.tasks && Follows(r.tasks[id], u, removed) && T.Inv(u)
    ensures RegistryOk(r.(registry := if removed then r.registry - {id} else r.registry, shut := shut, tasks := r.tasks[id := u]))
  {
    hide T.Inv;
    hide Outstanding;
  }

  lemma AskedTask<V>(r: Runtime<V>, id: Id, u: T.Task<V>, removed: bool, shut: ShutPc)
    requires AskedOk(r) && id in r.tasks && Follows(r.tasks[id], u, removed)
    requires shut == r.shut
             || (r.shut.Aborting? && shut == Aborting(r.shut.todo - {id}) && (u.gate.cancelRequested || u.gate.phase != T.Live))
    ensures AskedOk(r.(registry := if removed then r.registry - {id} else r.registry, shut := shut, tasks := r.tasks[id := u]))
  {
    hide Outstanding;
  }

  lemma KeptTask<V>(r: Runtime<V>, id: Id, e: T.Event<V>, m: Runtime<V>)
    requires Inv(r) && id in r.tasks && T.Enabled(r.tasks[id], e)
    requires m == r.(registry := if e.Remove? then r.registry - {id} else r.registry, shut := m.shut)
    requires m.shut == r.shut || (r.shut.Aborting? && e == T.Abort(true) && m.shut == Aborting(r.shut.todo - {id}))
    ensures PutTask(m, id, T.Apply(r.tasks[id], e)).Ok? && Inv(PutTask(m, id, T.Apply(r.tasks[id], e)).value)
  {
    hide RegistryOk;
    hide AskedOk;
    hide Follows;
    hide T.Inv;
    hide T.Apply;
    hide T.Enabled;
    hide G.GateOk;
    TaskKnown(r, id);
    TaskStepOk(r.tasks[id], e);
    var u := T.Apply(r.tasks[id], e).value;
    RegistryTask(r, id, u, e.Remove?, m.shut);
    AskedTask(r, id, u, e.Remove?, m.shut);
  }

  lemma TaskKnown<V>(r: Runtime<V>, id: Id)
    requires RegistryOk(r) && id in r.tasks
    ensures T.Inv(r.tasks[id]) && !r.tasks[id].pc.Unspawned?
  {
    hide T.Inv;
  }

  lemma KeptDriver<V>(r: Runtime<V>, w: Which, g: GateStep)
    requires Inv(r) && GateEnabled(DriverOf(r, w), g)
    ensures PutDriver(r, w, GateApply(DriverOf(r, w), g)).Ok?
    ensures Inv(PutDriver(r, w, GateApply(DriverOf(r, w), g)).value)
  {
    GateStepOk(DriverOf(r, w), g);
    hide T.Inv;
    hide GateApply;
    hide G.GateOk;
  }

  lemma KeptOwner<V>(r: Runtime<V>, e: Event<V>)
    requires Inv(r) && Enabled(r, e)
    requires e.BeginShutdown? || e.AbortsDone? || e.SeeDrained? || e.SeeUringDone? || e.SeeTimerDone? || e.FinishShutdown? || e.FailShutdown?
    ensures Apply(r, e).Ok? && Inv(Apply(r, e).value)
  {
    hide T.Inv;
    hide G.GateOk;
  }

  /** No step is fatal, and each keeps the invariant. */
  lemma Kept<V>(r: Runtime<V>, e: Event<V>)
    requires Inv(r) && Enabled(r, e)
    ensures Apply(r, e).Ok? && Inv(Apply(r, e).value)
  {
    match e
    case Spawn(submitted) =>
      hide Inv;
      KeptSpawn(r, submitted);
    case TaskStep(id, te) =>
      hide Inv;
      KeptTask(r, id, te, r);
    case Complete(id) =>
      hide Inv;
      KeptTask(r, id, T.Remove, r.(registry := r.registry - {id}));
    case AbortOne(id) => KeptAbort(r, id);
    case DriverStep(w, g) =>
      hide Inv;
      KeptDriver(r, w, g);
    case _ =>
      hide Inv;
      KeptOwner(r, e);
  }

  lemma Listed<V>(r: Runtime<V>, id: Id)
    requires Inv(r) && r.shut.Aborting? && id in r.shut.todo
    ensures id in r.tasks && !r.tasks[id].pc.Unspawned?
  {
    hide T.Inv;
    hide Outstanding;
  }

  lemma KeptAbort<V>(r: Runtime<V>, id: Id)
    requires Inv(r) && r.shut.Aborting? && id in r.shut.todo
    ensures Enabled(r, AbortOne(id)) && Apply(r, AbortOne(id)).Ok? && Inv(Apply(r, AbortOne(id)).value)
  {
    hide Inv;
    hide T.Apply;
    hide PutTask;
    Listed(r, id);
    KeptTask(r, id, T.Abort(true), r.(shut := Aborting(r.shut.todo - {id})));
  }

  ghost predicate Reaches<V(!new)>(r: Runtime<V>, run: seq<Event<V>>, m: Runtime<V>)
    decreases |run|
  {
    if run == [] then m == r
    else Enabled(r, run[0]) && Apply(r, run[0]).Ok? && Reaches(Apply(r, run[0]).value, run[1..], m)
  }

  lemma {:induction false} Runs<V(!new)>(r: Runtime<V>, run: seq<Event<V>>, m: Runtime<V>)
    requires Inv(r) && Reaches(r, run, m)
    ensures Inv(m)
    decreases |run|
  {
    hide Inv;
    hide Enabled;
    hide Apply;
    if run != [] {
      Kept(r, run[0]);
      Runs(Apply(r, run[0]).value, run[1..], m);
    }
  }

  // ----- What shutdown guarantees ---------------------------------------------------------------------------

  function Rank(l: Lifecycle): nat {
    match l
    case Running => 0
    case Closing => 1
    case Closed => 2
  }

  /** The lifecycle only moves forward, and only a running runtime takes in tasks. */
  lemma LifecycleMonotone<V>(r: Runtime<V>, e: Event<V>)
    requires Inv(r) && Enabled(r, e) && Apply(r, e).Ok?
    ensures Rank(r.lifecycle) <= Rank(Apply(r, e).value.lifecycle)
    ensures r.lifecycle != Running ==> Apply(r, e).value.tasks.Keys == r.tasks.Keys
    ensures r.lifecycle != Running ==> Apply(r, e).value.registry <= r.registry
  {
    hide T.Apply;
    hide T.Inv;
    hide G.GateOk;
  }

  /** The native layer goes down after everything that could use it. */
  ghost predicate AllGone<V>(r: Runtime<V>) {
    && r.registry == {} && r.lifecycle != Running
    && r.uring.gate.phase == G.Destroyed && r.timer.gate.phase == G.Destroyed
    && forall id | id in r.tasks ::
         && r.tasks[id].gate.phase == T.Destroyed && !r.tasks[id].future
         && (r.tasks[id].pc.Unspawnable? || (r.tasks[id].join.nativeCompleted && |r.tasks[id].trace.stores| == 1))
  }

  lemma TaskGone<V>(t: T.Task<V>)
    requires T.Inv(t) && !t.pc.Unspawned? && !Outstanding(t)
    ensures t.gate.phase == T.Destroyed && !t.future
    ensures t.pc.Unspawnable? || (t.join.nativeCompleted && |t.trace.stores| == 1)
  {
  }

  /** Shutdown was called, every task is out of the registry and both drivers are destroyed. */
  ghost predicate Down<V>(r: Runtime<V>) {
    r.shut != NotCalled && r.registry == {} && r.uring.at == G.Gone && r.timer.at == G.Gone
  }

  lemma DownLast<V>(r: Runtime<V>)
    requires Inv(r) && Down(r)
    ensures AllGone(r)
  {
    forall id | id in r.tasks
      ensures r.tasks[id].gate.phase == T.Destroyed && !r.tasks[id].future
      ensures r.tasks[id].pc.Unspawnable? || (r.tasks[id].join.nativeCompleted && |r.tasks[id].trace.stores| == 1)
    {
      assert !Outstanding(r.tasks[id]) by {
        assert id !in r.registry;
      }
      TaskGone(r.tasks[id]);
    }
  }

  /** No wake, abort, join, spawn or notification makes a native call any more. */
  ghost predicate NoCalls<V>(r: Runtime<V>, m: Runtime<V>) {
    && m.tasks.Keys == r.tasks.Keys
    && (forall id | id in r.tasks :: m.tasks[id].tokens == r.tasks[id].tokens)
    && m.uring.native == r.uring.native && m.timer.native == r.timer.native
  }

  lemma GoneIsSilent<V>(t: T.Task<V>, e: T.Event<V>)
    requires T.Inv(t) && !t.pc.Unspawned? && !Outstanding(t) && T.Enabled(t, e)
    ensures T.Apply(t, e).Ok? && T.Apply(t, e).value.tokens == t.tokens
  {
  }

  lemma SilentTask<V>(r: Runtime<V>, e: Event<V>)
    requires Inv(r) && Down(r) && Enabled(r, e) && Apply(r, e).Ok? && (e.TaskStep? || e.Complete? || e.AbortOne?)
    ensures NoCalls(r, Apply(r, e).value) && Down(Apply(r, e).value)
  {
    hide T.Inv;
    hide G.GateOk;
    hide Outstanding;
    var te := if e.Complete? then T.Remove else if e.AbortOne? then T.Abort(true) else e.e;
    NotOutstanding(r, e.id);
    hide T.Apply;
    hide T.Enabled;
    GoneIsSilent(r.tasks[e.id], te);
  }

  lemma NotOutstanding<V>(r: Runtime<V>, id: Id)
    requires RegistryOk(r) && r.registry == {} && id in r.tasks
    ensures T.Inv(r.tasks[id]) && !r.tasks[id].pc.Unspawned? && !Outstanding(r.tasks[id])
  {
    hide T.Inv;
    hide Outstanding;
    assert id !in r.registry;
  }

  lemma SilentRest<V>(r: Runtime<V>, e: Event<V>)
    requires Inv(r) && Down(r) && Enabled(r, e) && Apply(r, e).Ok? && !(e.TaskStep? || e.Complete? || e.AbortOne?)
    ensures NoCalls(r, Apply(r, e).value) && Down(Apply(r, e).value)
  {
    hide T.Apply;
    hide T.Inv;
    hide G.GateOk;
    hide GateApply;
    if e.DriverStep? {
      GateStepOk(DriverOf(r, e.w), e.g);
    }
  }

  /** Once everything is down, whatever happens makes no native call, another call of shutdown included. */
  lemma {:induction false} SilentForever<V(!new)>(r: Runtime<V>, run: seq<Event<V>>, m: Runtime<V>)
    requires Inv(r) && Down(r) && Reaches(r, run, m)
    ensures NoCalls(r, m) && AllGone(m)
    decreases |run|
  {
    hide Enabled;
    hide Apply;
    hide Inv;
    hide Down;
    if run == [] {
      DownLast(r);
    } else {
      Kept(r, run[0]);
      if run[0].TaskStep? || run[0].Complete? || run[0].AbortOne? {
        SilentTask(r, run[0]);
      } else {
        SilentRest(r, run[0]);
      }
      SilentForever(Apply(r, run[0]).value, run[1..], m);
    }
  }

  /** The native layer is finalized, or its finalization has failed, only when everything is down. */
  lemma NativeDownLast<V>(r: Runtime<V>)
    requires Inv(r) && r.shut in {NativeDown, Finished}
    ensures Down(r)
  {
    hide T.Inv;
    hide G.GateOk;
  }

  // ----- Draining ---------------------------------------------------------------------------------------------

  /** How many callback steps a task still has to take once it has been asked to stop. */
  function Left<V>(pc: T.Pc<V>): nat {
    match pc
    case Upgrading => 14
    case Polling => 13
    case Returned(_) => 12
    case Suspending => 11
    case Idle => 10
    case Entered => 9
    case SuspendFailed => 7
    case Dropping(_) => 6
    case Storing(_) => 5
    case Over => 4
    case Retired => 3
    case Published => 2
    case _ => 0
  }

  /** The native callbacks of a task that has been asked to stop always have a step to take. */
  lemma CanGoOn<V>(t: T.Task<V>, polled: T.Polled<V>) returns (e: T.Event<V>)
    requires T.Inv(t) && Outstanding(t) && (t.gate.cancelRequested || t.gate.phase != T.Live)
    ensures T.Enabled(t, e) && !T.Outside(e) && !e.Spawn? && (e.Upgrade? ==> e.runtime)
  {
    match t.pc
    case Idle => e := T.Enter;
    case Entered => e := T.StartPoll;
    case Upgrading => e := T.Upgrade(true);
    case Polling => e := T.PollFuture(polled);
    case Returned(_) => e := T.FinishPoll;
    case Suspending => e := T.Suspend(true);
    case SuspendFailed => e := T.FailSuspend;
    case Dropping(_) => e := T.DropFuture(false);
    case Storing(_) => e := T.Store;
    case Over => e := T.Retire;
    case Retired => e := T.Publish;
    case Published => e := T.Remove;
  }

  /** Each of those steps brings the task nearer to its removal, whatever its future still does. */
  lemma GoesOn<V>(t: T.Task<V>, e: T.Event<V>)
    requires T.Inv(t) && (t.gate.cancelRequested || t.gate.phase != T.Live) && T.Enabled(t, e) && !e.Spawn?
    ensures T.Apply(t, e).Ok?
    ensures var u := T.Apply(t, e).value;
            if T.Outside(e) then Left(u.pc) == Left(t.pc) else Left(u.pc) < Left(t.pc)
  {
    T.NeverFatal(t, e);
  }

  /**
    Shutdown cannot get stuck waiting: as long as a task is registered, one of its native callbacks
    can go on, and after at most fourteen callback steps the task is out of the registry.
   */
  lemma DrainGoesOn<V>(r: Runtime<V>, id: Id, polled: T.Polled<V>) returns (e: T.Event<V>)
    requires Inv(r) && r.shut == Waiting && id in r.registry
    ensures id in r.tasks && Left(r.tasks[id].pc) <= 14 && T.Enabled(r.tasks[id], e) && !T.Outside(e)
    ensures T.Apply(r.tasks[id], e).Ok? && Left(T.Apply(r.tasks[id], e).value.pc) < Left(r.tasks[id].pc)
    ensures Enabled(r, if e.Remove? then Complete(id) else TaskStep(id, e))
  {
    e := CanGoOn(r.tasks[id], polled);
    hide T.Inv;
    GoesOn(r.tasks[id], e);
  }

  // ----- The whole drain --------------------------------------------------------------------------------------

  /** Everyone the registry names has stopped or been asked to. */
  ghost predicate AllAsked<V>(r: Runtime<V>) {
    forall id | id in r.registry && id in r.tasks ::
      r.tasks[id].gate.cancelRequested || r.tasks[id].gate.phase != T.Live
  }

  function LeftOf<V>(r: Runtime<V>, id: Id): nat {
    if id in r.registry && id in r.tasks then Left(r.tasks[id].pc) else 0
  }

  function LeftBelow<V>(r: Runtime<V>, n: nat): nat {
    if n == 0 then 0 else LeftBelow(r, n - 1) + LeftOf(r, n - 1)
  }

  /** How many callback steps the registered tasks still have to take together. */
  function DrainWork<V>(r: Runtime<V>): nat {
    LeftBelow(r, r.nextId)
  }

  /** A step of the native callbacks of a task. */
  predicate CallbackStep<V>(e: Event<V>) {
    e.Complete? || (e.TaskStep? && !T.Outside(e.e))
  }

  function CallbackSteps<V>(run: seq<Event<V>>): nat {
    if run == [] then 0 else (if CallbackStep(run[0]) then 1 else 0) + CallbackSteps(run[1..])
  }

  lemma {:induction false} LeftChanged<V>(r: Runtime<V>, m: Runtime<V>, id: Id, n: nat)
    requires forall x | x != id :: LeftOf(m, x) == LeftOf(r, x)
    ensures LeftBelow(m, n) + (if id < n then LeftOf(r, id) else 0) == LeftBelow(r, n) + (if id < n then LeftOf(m, id) else 0)
  {
    hide LeftOf;
    if n > 0 {
      LeftChanged(r, m, id, n - 1);
    }
  }

  lemma {:induction false} LeftSame<V>(r: Runtime<V>, m: Runtime<V>, n: nat)
    requires m.registry == r.registry && m.tasks == r.tasks
    ensures LeftBelow(m, n) == LeftBelow(r, n)
  {
    if n > 0 {
      LeftSame(r, m, n - 1);
    }
  }

  /** Whoever has a callback step to take is registered, and no task has more than fourteen. */
  lemma LeftBounds<V>(r: Runtime<V>, id: Id)
    requires RegistryOk(r)
    ensures LeftOf(r, id) <= 14 && (id in r.registry <==> LeftOf(r, id) > 0)
    ensures id in r.registry ==> id < r.nextId
  {
    hide T.Inv;
  }

  lemma {:induction false} NoneLeft<V>(r: Runtime<V>, n: nat)
    requires RegistryOk(r)
    ensures LeftBelow(r, n) == 0 <==> forall id | id < n :: id !in r.registry
  {
    hide RegistryOk;
    hide LeftOf;
    if n > 0 {
      NoneLeft(r, n - 1);
      LeftBounds(r, n - 1);
    }
  }

  lemma {:induction false} LeftAtMost<V>(r: Runtime<V>, n: nat)
    requires RegistryOk(r)
    ensures LeftBelow(r, n) <= 14 * |set id | id in r.registry && id < n|
  {
    hide RegistryOk;
    hide LeftOf;
    var below := set id | id in r.registry && id < n;
    if n > 0 {
      LeftAtMost(r, n - 1);
      LeftBounds(r, n - 1);
      var less := set id | id in r.registry && id < n - 1;
      assert below == less + (if n - 1 in r.registry then {n - 1} else {});
    }
  }

  /** The drain is over exactly when no callback step is left. */
  lemma DrainWorkBounds<V>(r: Runtime<V>)
    requires RegistryOk(r)
    ensures DrainWork(r) <= 14 * |r.registry| && (DrainWork(r) == 0 <==> r.registry == {})
  {
    NoneLeft(r, r.nextId);
    LeftAtMost(r, r.nextId);
    forall id | id in r.registry
      ensures id < r.nextId
    {
      LeftBounds(r, id);
    }
    assert (set id | id in r.registry && id < r.nextId) == r.registry;
  }

  /** What one step of one registered task makes of the work: a callback step takes some away. */
  lemma WorkOfTask<V>(r: Runtime<V>, id: Id, e: T.Event<V>)
    requires Inv(r) && AllAsked(r) && id in r.tasks && T.Enabled(r.tasks[id], e) && !e.Spawn?
    ensures T.Apply(r.tasks[id], e).Ok?
    ensures var m := r.(registry := if e.Remove? then r.registry - {id} else r.registry,
                        tasks := r.tasks[id := T.Apply(r.tasks[id], e).value]);
            AllAsked(m) && DrainWork(m) + (if T.Outside(e) then 0 else 1) <= DrainWork(r)
  {
    hide T.Inv;
    hide T.Apply;
    hide T.Enabled;
    hide AskedOk;
    hide ShutOk;
    hide LeftBelow;
    TaskKnown(r, id);
    TaskStepOk(r.tasks[id], e);
    var u := T.Apply(r.tasks[id], e).value;
    var m := r.(registry := if e.Remove? then r.registry - {id} else r.registry, tasks := r.tasks[id := u]);
    TaskLeft(r.tasks[id], e);
    LeftBounds(r, id);
    LeftChanged(r, m, id, r.nextId);
  }

  lemma TaskLeft<V>(t: T.Task<V>, e: T.Event<V>)
    requires T.Inv(t) && T.Enabled(t, e) && !e.Spawn? && !t.pc.Unspawned?
    requires Outstanding(t) ==> t.gate.cancelRequested || t.gate.phase != T.Live
    ensures T.Apply(t, e).Ok?
    ensures var u := T.Apply(t, e).value;
            && (!T.Outside(e) ==> Outstanding(t) && Left(u.pc) < Left(t.pc))
            && (T.Outside(e) ==> Left(u.pc) == Left(t.pc))
  {
    if Outstanding(t) {
      hide T.Inv;
      GoesOn(t, e);
    } else {
      T.NeverFatal(t, e);
    }
  }

  lemma WorkOfRest<V>(r: Runtime<V>, e: Event<V>)
    requires Inv(r) && AllAsked(r) && r.shut != NotCalled && Enabled(r, e) && Apply(r, e).Ok?
    requires !e.TaskStep? && !e.Complete? && !e.AbortOne?
    ensures var m := Apply(r, e).value;
            m.registry == r.registry && m.tasks == r.tasks && m.nextId == r.nextId && m.shut != NotCalled
  {
    hide T.Inv;
    hide T.Apply;
    hide G.GateOk;
    hide GateApply;
  }

  lemma WorkOfStep<V>(r: Runtime<V>, e: Event<V>)
    requires Inv(r) && AllAsked(r) && r.shut != NotCalled && Enabled(r, e) && Apply(r, e).Ok?
    ensures var m := Apply(r, e).value;
            && AllAsked(m) && m.shut != NotCalled
            && DrainWork(m) + (if CallbackStep(e) then 1 else 0) <= DrainWork(r)
  {
    hide Inv;
    hide T.Apply;
    hide T.Enabled;
    hide LeftBelow;
    hide LeftOf;
    if e.TaskStep? || e.Complete? || e.AbortOne? {
      var te := if e.Complete? then T.Remove else if e.AbortOne? then T.Abort(true) else e.e;
      if e.AbortOne? {
        Listed(r, e.id);
        AbortEnabled(r.tasks[e.id]);
      }
      WorkOfTask(r, e.id, te);
      var m := Apply(r, e).value;
      LeftSame(r.(registry := m.registry, tasks := m.tasks), m, r.nextId);
    } else {
      WorkOfRest(r, e);
      LeftSame(r, Apply(r, e).value, r.nextId);
    }
  }

  lemma AbortEnabled<V>(t: T.Task<V>)
    requires !t.pc.Unspawned?
    ensures T.Enabled(t, T.Abort(true))
  {
  }

  lemma {:induction false} WorkOfRun<V(!new)>(r: Runtime<V>, more: seq<Event<V>>, m: Runtime<V>)
    requires Inv(r) && AllAsked(r) && r.shut != NotCalled && Reaches(r, more, m)
    ensures Inv(m) && CallbackSteps(more) + DrainWork(m) <= DrainWork(r)
    decreases |more|
  {
    hide Inv;
    hide AllAsked;
    hide Enabled;
    hide Apply;
    hide DrainWork;
    if more != [] {
      Kept(r, more[0]);
      WorkOfStep(r, more[0]);
      WorkOfRun(Apply(r, more[0]).value, more[1..], m);
    }
  }

  lemma WaitingAllAsked<V>(r: Runtime<V>)
    requires Inv(r) && r.shut == Waiting
    ensures AllAsked(r) && RegistryOk(r)
  {
    hide T.Inv;
    hide Outstanding;
  }

  lemma InvRegistry<V>(r: Runtime<V>)
    requires Inv(r)
    ensures RegistryOk(r)
  {
    hide T.Inv;
  }

  /**
    The whole drain is bounded: once shutdown waits, every continuation holds no more callback steps of
    all tasks together than fourteen for each registered task, whatever futures, wakers, joiners and
    drivers do in between; and the registry is empty exactly when no step is left.
   */
  lemma DrainBounded<V(!new)>(run: seq<Event<V>>, r: Runtime<V>, more: seq<Event<V>>, m: Runtime<V>)
    requires Reaches(Init(), run, r) && r.shut == Waiting && Reaches(r, more, m)
    ensures CallbackSteps(more) + DrainWork(m) <= DrainWork(r) <= 14 * |r.registry|
    ensures DrainWork(m) == 0 <==> m.registry == {}
  {
    hide Inv;
    hide Reaches;
    hide AllAsked;
    hide RegistryOk;
    hide DrainWork;
    Reached(run, r);
    WaitingAllAsked(r);
    WorkOfRun(r, more, m);
    InvRegistry(m);
    DrainWorkBounds(r);
    DrainWorkBounds(m);
  }

  lemma KeepsWaiting<V>(r: Runtime<V>, e: Event<V>)
    requires Enabled(r, e) && Apply(r, e).Ok? && (e.TaskStep? || e.Complete?)
    ensures Apply(r, e).value.shut == r.shut
  {
    hide T.Apply;
    hide T.Enabled;
  }

  /** And it can always be finished: some run of at most that many callback steps empties the registry. */
  lemma {:induction false} DrainEnds<V(!new)>(r: Runtime<V>, polled: T.Polled<V>)
      returns (more: seq<Event<V>>, m: Runtime<V>)
    requires Inv(r) && r.shut == Waiting
    ensures Reaches(r, more, m) && |more| <= DrainWork(r) && m.shut == Waiting && m.registry == {}
    decreases DrainWork(r)
  {
    hide Inv;
    hide AllAsked;
    hide RegistryOk;
    hide DrainWork;
    hide Enabled;
    hide Apply;
    WaitingAllAsked(r);
    DrainWorkBounds(r);
    more, m := [], r;
    if r.registry != {} {
      var id :| id in r.registry;
      var te := DrainGoesOn(r, id, polled);
      var e := if te.Remove? then Complete(id) else TaskStep(id, te);
      Kept(r, e);
      KeepsWaiting(r, e);
      WorkOfStep(r, e);
      var rest;
      rest, m := DrainEnds(Apply(r, e).value, polled);
      more := [e] + rest;
      assert more[1..] == rest;
    }
  }

  lemma DrainEndsAlways<V(!new)>(run: seq<Event<V>>, r: Runtime<V>, polled: T.Polled<V>)
      returns (more: seq<Event<V>>, m: Runtime<V>)
    requires Reaches(Init(), run, r) && r.shut == Waiting
    ensures Reaches(r, more, m) && |more| <= DrainWork(r) && m.shut == Waiting && m.registry == {}
  {
    hide Inv;
    hide Reaches;
    hide DrainWork;
    Reached(run, r);
    more, m := DrainEnds(r, polled);
  }

  // ----- From the start ---------------------------------------------------------------------------------------

  lemma Reached<V(!new)>(run: seq<Event<V>>, r: Runtime<V>)
    requires Reaches(Init(), run, r)
    ensures Inv(r)
  {
    hide Inv;
    hide Reaches;
    InitInv<V>();
    Runs(Init(), run, r);
  }

  /** No run of the runtime reaches a fatal step, the lifecycle only moves forward, and only a running runtime spawns. */
  lemma RuntimeAlways<V(!new)>(run: seq<Event<V>>, r: Runtime<V>, e: Event<V>)
    requires Reaches(Init(), run, r) && Enabled(r, e)
    ensures Apply(r, e).Ok? && Rank(r.lifecycle) <= Rank(Apply(r, e).value.lifecycle)
    ensures r.lifecycle != Running ==> Apply(r, e).value.tasks.Keys == r.tasks.Keys
  {
    hide Inv;
    hide Reaches;
    hide Enabled;
    hide Apply;
    Reached(run, r);
    Kept(r, e);
    LifecycleMonotone(r, e);
  }

  /**
    Shutdown drains everything spawned: when the native layer goes down, every task whose spawn
    succeeded is destroyed with its one result published, both drivers are destroyed, and nothing that
    happens afterwards makes a native call, even if going down fails and the owner tries again.
   */
  lemma DrainedAlways<V(!new)>(run: seq<Event<V>>, r: Runtime<V>, more: seq<Event<V>>, m: Runtime<V>)
    requires Reaches(Init(), run, r) && r.shut in {NativeDown, Finished} && Reaches(r, more, m)
    ensures AllGone(r) && AllGone(m) && NoCalls(r, m)
  {
    hide Inv;
    hide Reaches;
    hide AllGone;
    hide NoCalls;
    hide Down;
    Reached(run, r);
    NativeDownLast(r);
    DownLast(r);
    SilentForever(r, more, m);
  }
}
