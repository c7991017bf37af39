/**
  One spawned future: its scheduling gate, its join cell, and the callbacks that run it.

  Every critical section is one step.  Wakes, aborts and joins come from any thread at any time; the
  run callback and the completed callback take their steps one after the other.  A native submission
  is a token that the next entry of the run callback consumes.
 */
module Task {
  import opened Prelude

  datatype TerminalKind = Ready | Cancelled | Panicked | RuntimeError

  datatype Phase = Building | Live | Terminal(kind: TerminalKind) | Destroyed

  /** The native gate; `task` tells whether it holds the descriptor. */
  datatype Gate = Gate(task: bool, phase: Phase, wakeSubmitted: bool, polling: bool, cancelRequested: bool)

  datatype JoinResult<T> = Value(value: T) | Failed(kind: TerminalKind)

  datatype Join<T> = Join(result: Option<JoinResult<T>>, nativeCompleted: bool, waiter: bool, consumed: bool)

  /** What `poll` of the future did. */
  datatype Polled<T> = Pending | Done(value: T) | Threw

  /** Where the native callbacks of the task are. */
  datatype Pc<T> =
    | Unspawned
    | Idle
    | Entered
    | Upgrading
    | Polling
    | Returned(polled: Polled<T>)
    | Suspending
    | SuspendFailed
    | Dropping(end: JoinResult<T>)
    | Storing(end: JoinResult<T>)
    | Over
    | Retired
    | Published
    | Removed
    | Unspawnable

  /**
    History.  `aborts` counts the aborts that returned true, `stores` and `joins` the results stored
    and handed out; `suspendFailed` and `lost` record the two ways in which the runtime itself fails
    the task; `woken` that a wake or an abort took effect since the last poll began.
   */
  datatype Trace<T> = Trace(
    aborts: nat, stores: seq<JoinResult<T>>, joins: seq<JoinResult<T>>, suspendFailed: bool, lost: bool, woken: bool)

  /** `future` tells whether the future slot is filled, `joinWoken` whether the joining task was woken. */
  datatype Task<T> = Task(
    gate: Gate, join: Join<T>, pc: Pc<T>, tokens: nat, future: bool, joinWaiting: bool, joinWoken: bool, trace: Trace<T>)

  datatype Event<T> =
    | Spawn(submitted: bool)
    | Wake(runtime: bool)
    | Abort(runtime: bool)
    | Enter
    | StartPoll
    | Upgrade(runtime: bool)
    | PollFuture(polled: Polled<T>)
    | FinishPoll
    | Suspend(ok: bool)
    | FailSuspend
    | DropFuture(panics: bool)
    | Store
    | Retire
    | Publish
    | Remove
    | PollJoin

  datatype Outcome<+S> = Ok(value: S) | Fatal(reason: string)

  function New<T>(): Task<T> {
    Task(Gate(false, Building, false, false, false), Join(None, false, false, false), Unspawned, 0, true, false, false,
         Trace(0, [], [], false, false, false))
  }

  predicate Enabled<T>(t: Task<T>, e: Event<T>) {
    match e
    case Spawn(_) => t.pc == Unspawned
    case Wake(_) => t.pc != Unspawned
    case Abort(_) => t.pc != Unspawned
    case Enter => t.pc == Idle && t.tokens > 0
    case StartPoll => t.pc == Entered
    case Upgrade(_) => t.pc == Upgrading
    case PollFuture(_) => t.pc == Polling
    case FinishPoll => t.pc.Returned?
    case Suspend(_) => t.pc == Suspending
    case FailSuspend => t.pc == SuspendFailed
    case DropFuture(_) => t.pc.Dropping?
    case Store => t.pc.Storing?
    // the native completed callback follows the last run callback
    case Retire => t.pc == Over
    case Publish => t.pc == Retired
    case Remove => t.pc == Published
    case PollJoin => t.pc != Unspawned && t.pc != Unspawnable && !t.join.consumed
  }

  // ----- The gate ---------------------------------------------------------------------------------------

  /** A native submission under the gate; only a gate that holds the descriptor can make one. */
  function Submit<T>(t: Task<T>): Outcome<Task<T>> {
    if !t.gate.task then Fatal("live task without descriptor")
    else Ok(t.(gate := t.gate.(wakeSubmitted := true), tokens := t.tokens + 1))
  }

  function Noted<T>(t: Task<T>): Task<T> {
    t.(trace := t.trace.(woken := true))
  }

  /** `schedule`. */
  function Schedule<T>(t: Task<T>, runtime: bool): Outcome<Task<T>> {
    if !runtime || t.gate.phase != Live then Ok(t)
    else if t.gate.wakeSubmitted then Ok(Noted(t))
    else Submit(Noted(t))
  }

  /** Whether `request_abort` would return true. */
  predicate AbortWins<T>(t: Task<T>, runtime: bool) {
    runtime && t.gate.phase == Live && !t.gate.cancelRequested
  }

  function RequestAbort<T>(t: Task<T>, runtime: bool): Outcome<Task<T>> {
    if !AbortWins(t, runtime) then Ok(t)
    else
      var u := Noted(t.(gate := t.gate.(cancelRequested := true), trace := t.trace.(aborts := t.trace.aborts + 1)));
      if t.gate.wakeSubmitted then Ok(u) else Submit(u)
  }

  function StartPollStep<T>(t: Task<T>): Outcome<Task<T>> {
    if t.gate.phase != Live || t.gate.polling then Fatal("invalid callback entry state")
    else
      var begun := t.(gate := t.gate.(polling := true, wakeSubmitted := false), trace := t.trace.(woken := false));
      if t.gate.cancelRequested then
        Ok(begun.(gate := begun.gate.(polling := false, phase := Terminal(Cancelled)), pc := Dropping(Failed(Cancelled))))
      else Ok(begun.(pc := Upgrading))
  }

  /** `finish_terminal`, and the result that the winner of the race leaves. */
  function FinishTerminal<T>(g: Gate, kind: TerminalKind): Gate {
    g.(polling := false, phase := Terminal(if g.cancelRequested then Cancelled else kind))
  }

  function FinishPollStep<T>(t: Task<T>): Outcome<Task<T>>
    requires t.pc.Returned?
  {
    if t.gate.phase != Live || !t.gate.polling then Fatal("invalid pending or terminal state")
    else
      match t.pc.polled
      case Pending =>
        if t.gate.cancelRequested then
          Ok(t.(gate := t.gate.(polling := false, phase := Terminal(Cancelled)), pc := Dropping(Failed(Cancelled))))
        else Ok(t.(gate := t.gate.(polling := false), pc := Suspending))
      case Done(v) =>
        Ok(t.(gate := FinishTerminal<T>(t.gate, Ready),
              pc := Dropping(if t.gate.cancelRequested then Failed(Cancelled) else Value(v))))
      case Threw =>
        Ok(t.(gate := FinishTerminal<T>(t.gate, Panicked),
              pc := Dropping(if t.gate.cancelRequested then Failed(Cancelled) else Failed(Panicked))))
  }

  /** The runtime core is gone: the task ends without a poll. */
  function LoseRuntime<T>(t: Task<T>): Outcome<Task<T>> {
    if t.gate.phase != Live || !t.gate.polling then Fatal("invalid terminal state")
    else
      Ok(t.(gate := FinishTerminal<T>(t.gate, RuntimeError), pc := Dropping(Failed(RuntimeError)),
            trace := t.trace.(lost := true)))
  }

  function FailSuspendStep<T>(t: Task<T>): Task<T> {
    t.(gate := if t.gate.phase == Live then t.gate.(phase := Terminal(RuntimeError)) else t.gate,
       pc := Dropping(Failed(RuntimeError)), trace := t.trace.(suspendFailed := true))
  }

  /** Dropping the future may panic, which matters only when it ended with a value. */
  function DropFutureStep<T>(t: Task<T>, panics: bool): Outcome<Task<T>>
    requires t.pc.Dropping?
  {
    if !t.future then Fatal("future missing")
    else if panics && t.pc.end.Value? then
      Ok(t.(future := false, pc := Storing(Failed(Panicked)),
            gate := if t.gate.phase.Terminal? then t.gate.(phase := Terminal(Panicked)) else t.gate))
    else Ok(t.(future := false, pc := Storing(t.pc.end)))
  }

  function StoreStep<T>(t: Task<T>): Outcome<Task<T>>
    requires t.pc.Storing?
  {
    if t.join.result.Some? then Fatal("task result stored twice")
    else
      Ok(t.(join := t.join.(result := Some(t.pc.end)), pc := Over,
            trace := t.trace.(stores := t.trace.stores + [t.pc.end])))
  }

  function RetireStep<T>(t: Task<T>): Outcome<Task<T>> {
    if !t.gate.phase.Terminal? || !t.gate.task then Fatal("could not retire completed native task")
    else Ok(t.(gate := t.gate.(task := false, phase := Destroyed), pc := Retired))
  }

  function PublishStep<T>(t: Task<T>): Task<T> {
    t.(join := t.join.(nativeCompleted := true, waiter := false,
                       result := if t.join.result.None? then Some(Failed(RuntimeError)) else t.join.result),
       joinWoken := t.joinWoken || t.join.waiter, pc := Published)
  }

  function PollJoinStep<T>(t: Task<T>): Task<T> {
    if t.join.nativeCompleted then
      var r := if t.join.result.Some? then t.join.result.value else Failed(RuntimeError);
      t.(join := t.join.(consumed := true, result := None), joinWaiting := false,
         trace := t.trace.(joins := t.trace.joins + [r]))
    else t.(join := t.join.(waiter := true), joinWaiting := true, joinWoken := false)
  }

  function Apply<T>(t: Task<T>, e: Event<T>): Outcome<Task<T>>
    requires Enabled(t, e)
  {
    match e
    case Spawn(submitted) =>
      if submitted then Ok(t.(gate := Gate(true, Live, true, false, false), pc := Idle, tokens := 1))
      else Ok(t.(gate := Gate(false, Destroyed, true, false, false), pc := Unspawnable, future := false))
    case Wake(runtime) => Schedule(t, runtime)
    case Abort(runtime) => RequestAbort(t, runtime)
    case Enter => Ok(t.(tokens := t.tokens - 1, pc := Entered))
    case StartPoll => StartPollStep(t)
    case Upgrade(runtime) => if runtime then Ok(t.(pc := Polling)) else LoseRuntime(t)
    case PollFuture(polled) => if !t.future then Fatal("future missing during poll") else Ok(t.(pc := Returned(polled)))
    case FinishPoll => FinishPollStep(t)
    case Suspend(ok) => Ok(t.(pc := if ok then Idle else SuspendFailed))
    case FailSuspend => Ok(FailSuspendStep(t))
    case DropFuture(panics) => DropFutureStep(t, panics)
    case Store => StoreStep(t)
    case Retire => RetireStep(t)
    case Publish => Ok(PublishStep(t))
    case Remove => Ok(t.(pc := Removed))
    case PollJoin => Ok(PollJoinStep(t))
  }

  // ----- Invariants -------------------------------------------------------------------------------------

  /** The callback is between its entry and the end of its last poll, or the task waits for one. */
  predicate Running<T>(pc: Pc<T>) {
    pc.Idle? || pc.Entered? || pc.Upgrading? || pc.Polling? || pc.Returned? || pc.Suspending? || pc.SuspendFailed?
  }

  predicate Ending<T>(pc: Pc<T>) {
    pc.Dropping? || pc.Storing? || pc.Over?
  }

  /**
    The gate follows the callbacks.  While the task is live there is exactly one submission under way
    for a recorded wake and none otherwise, and a pending cancellation has one.
   */
  ghost predicate GateOk<T>(t: Task<T>) {
    && (t.gate.phase == Live <==> Running(t.pc))
    && (t.gate.phase.Terminal? <==> Ending(t.pc))
    && (t.gate.phase == Building <==> t.pc.Unspawned?)
    && (t.gate.task <==> Running(t.pc) || Ending(t.pc))
    && (t.gate.polling <==> t.pc.Upgrading? || t.pc.Polling? || t.pc.Returned?)
    && (Running(t.pc) ==>
          && t.tokens + (if t.pc.Entered? then 1 else 0) == (if t.gate.wakeSubmitted then 1 else 0)
          && (t.gate.cancelRequested ==> t.gate.wakeSubmitted)
          && (t.trace.woken ==> t.gate.wakeSubmitted))
  }

  function KindOf<T>(r: JoinResult<T>): TerminalKind {
    match r
    case Value(_) => Ready
    case Failed(kind) => kind
  }

  /** How the task ended, and who decided it. */
  ghost predicate EndOk<T>(t: Task<T>, end: JoinResult<T>) {
    && (end == Failed(Cancelled) <==> t.gate.cancelRequested && !t.trace.suspendFailed && !t.trace.lost)
    && (t.trace.suspendFailed || t.trace.lost ==> end == Failed(RuntimeError))
    && (t.gate.phase.Terminal? ==> t.gate.phase.kind == KindOf(end) || (t.trace.lost && t.gate.phase.kind == Cancelled))
    && (end.Failed? ==> end.kind != Ready)
  }

  ghost predicate ResultOk<T>(t: Task<T>) {
    && t.trace.aborts == (if t.gate.cancelRequested then 1 else 0)
    && (t.pc.Unspawned? ==> !t.gate.cancelRequested)
    && (Running(t.pc) || t.pc.Unspawned? ==> !t.trace.suspendFailed && !t.trace.lost)
    && (t.pc.Dropping? || t.pc.Storing? ==> EndOk(t, t.pc.end))
    && (t.pc in {Over, Retired, Published, Removed} <==> t.trace.stores != [])
    && |t.trace.stores| <= 1
    && (t.trace.stores != [] ==> EndOk(t, t.trace.stores[0]))
    && (t.future <==> t.pc.Unspawned? || Running(t.pc) || t.pc.Dropping?)
  }

  ghost predicate JoinOk<T>(t: Task<T>) {
    && (t.join.nativeCompleted <==> t.pc in {Published, Removed})
    && (t.join.consumed ==> t.join.nativeCompleted && t.join.result.None? && t.trace.joins == t.trace.stores)
    && (!t.join.consumed ==> t.trace.joins == [] && t.trace.stores == if t.join.result.Some? then [t.join.result.value] else [])
    && (t.joinWaiting ==> if t.join.nativeCompleted then t.joinWoken else t.join.waiter)
  }

  ghost predicate Inv<T>(t: Task<T>) {
    GateOk(t) && ResultOk(t) && JoinOk(t)
  }

  lemma NewInv<T>()
    ensures Inv(New<T>())
  {
  }

  lemma NeverFatal<T>(t: Task<T>, e: Event<T>)
    requires Inv(t) && Enabled(t, e)
    ensures Apply(t, e).Ok?
  {
  }

  /** Steps that any thread may take. */
  predicate Outside<T>(e: Event<T>) {
    e.Wake? || e.Abort? || e.PollJoin?
  }

  /** Steps up to the poll. */
  predicate Opens<T>(e: Event<T>) {
    e.Spawn? || e.Enter? || e.StartPoll? || e.Upgrade? || e.PollFuture?
  }

  /** Steps that close the poll. */
  predicate Closes<T>(e: Event<T>) {
    e.FinishPoll? || e.Suspend? || e.FailSuspend?
  }

  /** Steps after the task is terminal. */
  predicate Cleans<T>(e: Event<T>) {
    e.DropFuture? || e.Store? || e.Retire? || e.Publish? || e.Remove?
  }

  lemma GateOutside<T>(t: Task<T>, e: Event<T>)
    requires GateOk(t) && Enabled(t, e) && Apply(t, e).Ok? && Outside(e)
    ensures GateOk(Apply(t, e).value)
  {
  }

  lemma GateOpens<T>(t: Task<T>, e: Event<T>)
    requires GateOk(t) && Enabled(t, e) && Apply(t, e).Ok? && Opens(e)
    ensures GateOk(Apply(t, e).value)
  {
  }

  lemma GateCloses<T>(t: Task<T>, e: Event<T>)
    requires GateOk(t) && Enabled(t, e) && Apply(t, e).Ok? && Closes(e)
    ensures GateOk(Apply(t, e).value)
  {
  }

  lemma GateCleans<T>(t: Task<T>, e: Event<T>)
    requires GateOk(t) && Enabled(t, e) && Apply(t, e).Ok? && Cleans(e)
    ensures GateOk(Apply(t, e).value)
  {
  }

  lemma GateKept<T>(t: Task<T>, e: Event<T>)
    requires GateOk(t) && Enabled(t, e) && Apply(t, e).Ok?
    ensures GateOk(Apply(t, e).value)
  {
    hide Apply;
    hide Enabled;
    hide GateOk;
    hide ResultOk;
    hide JoinOk;
    if Outside(e) {
      GateOutside(t, e);
    } else if Opens(e) {
      GateOpens(t, e);
    } else if Closes(e) {
      GateCloses(t, e);
    } else {
      GateCleans(t, e);
    }
  }

  lemma ResultOutside<T>(t: Task<T>, e: Event<T>)
    requires GateOk(t) && ResultOk(t) && Enabled(t, e) && Apply(t, e).Ok? && Outside(e)
    ensures ResultOk(Apply(t, e).value)
  {
  }

  lemma ResultOpens<T>(t: Task<T>, e: Event<T>)
    requires GateOk(t) && ResultOk(t) && Enabled(t, e) && Apply(t, e).Ok? && Opens(e)
    ensures ResultOk(Apply(t, e).value)
  {
  }

  lemma ResultCloses<T>(t: Task<T>, e: Event<T>)
    requires GateOk(t) && ResultOk(t) && Enabled(t, e) && Apply(t, e).Ok? && Closes(e)
    ensures ResultOk(Apply(t, e).value)
  {
  }

  lemma ResultCleans<T>(t: Task<T>, e: Event<T>)
    requires GateOk(t) && ResultOk(t) && Enabled(t, e) && Apply(t, e).Ok? && Cleans(e)
    ensures ResultOk(Apply(t, e).value)
  {
  }

  lemma ResultKept<T>(t: Task<T>, e: Event<T>)
    requires GateOk(t) && ResultOk(t) && Enabled(t, e) && Apply(t, e).Ok?
    ensures ResultOk(Apply(t, e).value)
  {
    hide Apply;
    hide Enabled;
    hide GateOk;
    hide ResultOk;
    hide JoinOk;
    if Outside(e) {
      ResultOutside(t, e);
    } else if Opens(e) {
      ResultOpens(t, e);
    } else if Closes(e) {
      ResultCloses(t, e);
    } else {
      ResultCleans(t, e);
    }
  }

  lemma JoinOutside<T>(t: Task<T>, e: Event<T>)
    requires ResultOk(t) && JoinOk(t) && Enabled(t, e) && Apply(t, e).Ok? && Outside(e)
    ensures JoinOk(Apply(t, e).value)
  {
  }

  lemma JoinOpens<T>(t: Task<T>, e: Event<T>)
    requires ResultOk(t) && JoinOk(t) && Enabled(t, e) && Apply(t, e).Ok? && Opens(e)
    ensures JoinOk(Apply(t, e).value)
  {
  }

  lemma JoinCloses<T>(t: Task<T>, e: Event<T>)
    requires ResultOk(t) && JoinOk(t) && Enabled(t, e) && Apply(t, e).Ok? && Closes(e)
    ensures JoinOk(Apply(t, e).value)
  {
  }

  lemma JoinCleans<T>(t: Task<T>, e: Event<T>)
    requires ResultOk(t) && JoinOk(t) && Enabled(t, e) && Apply(t, e).Ok? && Cleans(e)
    ensures JoinOk(Apply(t, e).value)
  {
  }

  lemma JoinKept<T>(t: Task<T>, e: Event<T>)
    requires ResultOk(t) && JoinOk(t) && Enabled(t, e) && Apply(t, e).Ok?
    ensures JoinOk(Apply(t, e).value)
  {
    hide Apply;
    hide Enabled;
    hide GateOk;
    hide ResultOk;
    hide JoinOk;
    if Outside(e) {
      JoinOutside(t, e);
    } else if Opens(e) {
      JoinOpens(t, e);
    } else if Closes(e) {
      JoinCloses(t, e);
    } else {
      JoinCleans(t, e);
    }
  }

  lemma Kept<T>(t: Task<T>, e: Event<T>)
    requires Inv(t) && Enabled(t, e)
    ensures Apply(t, e).Ok? && Inv(Apply(t, e).value)
  {
    NeverFatal(t, e);
    hide Apply;
    hide Enabled;
    hide GateOk;
    hide ResultOk;
    hide JoinOk;
    GateKept(t, e);
    ResultKept(t, e);
    JoinKept(t, e);
  }

  ghost predicate Reaches<T(!new)>(t: Task<T>, run: seq<Event<T>>, u: Task<T>)
    decreases |run|
  {
    if run == [] then u == t
    else Enabled(t, run[0]) && Apply(t, run[0]).Ok? && Reaches(Apply(t, run[0]).value, run[1..], u)
  }

  lemma {:induction false} Runs<T(!new)>(t: Task<T>, run: seq<Event<T>>, u: Task<T>)
    requires Inv(t) && Reaches(t, run, u)
    ensures Inv(u)
    decreases |run|
  {
    hide Inv;
    hide Enabled;
    hide Apply;
    if run != [] {
      Kept(t, run[0]);
      Runs(Apply(t, run[0]).value, run[1..], u);
    }
  }

  lemma {:induction false} Snoc<T(!new)>(t: Task<T>, run: seq<Event<T>>, u: Task<T>, e: Event<T>)
    requires Reaches(t, run, u) && Enabled(u, e) && Apply(u, e).Ok?
    ensures Reaches(t, run + [e], Apply(u, e).value)
    decreases |run|
  {
    hide Enabled;
    hide Apply;
    if run == [] {
      assert run + [e] == [e];
      assert Reaches(Apply(u, e).value, [e][1..], Apply(u, e).value);
    } else {
      assert (run + [e])[1..] == run[1..] + [e];
      Snoc(Apply(t, run[0]).value, run[1..], u, e);
    }
  }

  // ----- What the invariant says --------------------------------------------------------------------------

  /**
    Wakes.  While the task is live, one submission is outstanding exactly when one is recorded; the
    callback that has been entered has consumed it and is about to poll.  A wake or an abort that took
    effect since the last poll began has such a submission or such a callback behind it.
   */
  ghost predicate WakesCoalesce<T>(t: Task<T>) {
    t.gate.phase == Live ==>
      && t.tokens <= 1
      && (t.pc != Entered ==> (t.tokens == 1 <==> t.gate.wakeSubmitted))
      && (t.trace.woken || t.gate.cancelRequested ==> t.tokens == 1 || t.pc == Entered)
  }

  /**
    Results.  At most one abort wins; the result is stored at most once and handed out at most once;
    and it says cancelled exactly when an abort won, unless the runtime itself failed the task.
   */
  ghost predicate OneResult<T>(t: Task<T>) {
    && t.trace.aborts <= 1 && |t.trace.stores| <= 1 && t.trace.joins <= t.trace.stores
    && (t.trace.stores != [] ==>
          (t.trace.stores[0] == Failed(Cancelled) <==> t.trace.aborts == 1 && !t.trace.suspendFailed && !t.trace.lost))
    && (t.trace.suspendFailed || t.trace.lost ==> t.trace.stores != [] ==> t.trace.stores[0] == Failed(RuntimeError))
    && (t.join.result.Some? && t.gate.phase.Terminal? && !t.trace.lost ==> t.gate.phase.kind == KindOf(t.join.result.value))
  }

  /** The result becomes visible only after the future is gone and the descriptor destroyed. */
  ghost predicate SeenLast<T>(t: Task<T>) {
    && (t.join.nativeCompleted || t.trace.joins != [] ==>
          t.gate.phase == Destroyed && !t.gate.task && !t.future && |t.trace.stores| == 1)
    && (t.joinWaiting && t.join.nativeCompleted ==> t.joinWoken)
  }

  lemma Promised<T>(t: Task<T>)
    requires Inv(t)
    ensures WakesCoalesce(t) && OneResult(t) && SeenLast(t)
  {
  }

  lemma AlwaysPromised<T(!new)>(run: seq<Event<T>>, t: Task<T>)
    requires Reaches(New(), run, t)
    ensures WakesCoalesce(t) && OneResult(t) && SeenLast(t)
    ensures forall e | Enabled(t, e) :: Apply(t, e).Ok?
  {
    hide Apply;
    hide Enabled;
    hide WakesCoalesce;
    hide OneResult;
    hide SeenLast;
    hide Inv;
    NewInv<T>();
    Runs(New(), run, t);
    Promised(t);
    forall e | Enabled(t, e)
      ensures Apply(t, e).Ok?
    {
      Kept(t, e);
    }
  }

  predicate Ended<T>(t: Task<T>) {
    t.gate.phase.Terminal? || t.gate.phase == Destroyed
  }

  lemma StaysEnded<T>(t: Task<T>, e: Event<T>)
    requires Inv(t) && Ended(t) && Enabled(t, e) && Apply(t, e).Ok?
    ensures !e.PollFuture? && !e.Enter?
    ensures var u := Apply(t, e).value;
            && Ended(u) && u.tokens == t.tokens && u.trace.aborts == t.trace.aborts && t.trace.stores <= u.trace.stores
            && (!t.future ==> !u.future)
  {
    hide JoinOk;
  }

  /**
    The end of a task is final.  Whatever wakes, aborts and joins still come, it is never submitted,
    entered or polled again, no abort wins any more, and a stored result is never replaced.
   */
  lemma {:induction false} LateForever<T(!new)>(t: Task<T>, more: seq<Event<T>>, u: Task<T>)
    requires Inv(t) && Ended(t) && Reaches(t, more, u)
    ensures Ended(u) && u.tokens == t.tokens && u.trace.aborts == t.trace.aborts && t.trace.stores <= u.trace.stores
    ensures !t.future ==> !u.future
    ensures forall i | 0 <= i < |more| :: !more[i].PollFuture? && !more[i].Enter?
    decreases |more|
  {
    hide Inv;
    hide Ended;
    hide Enabled;
    hide Apply;
    if more != [] {
      Kept(t, more[0]);
      StaysEnded(t, more[0]);
      LateForever(Apply(t, more[0]).value, more[1..], u);
      assert forall i | 0 < i < |more| :: more[i] == more[1..][i - 1];
    }
  }

  lemma LateAlways<T(!new)>(run: seq<Event<T>>, t: Task<T>, more: seq<Event<T>>, u: Task<T>)
    requires Reaches(New(), run, t) && Ended(t) && Reaches(t, more, u)
    ensures Ended(u) && u.tokens == t.tokens && u.trace.aborts == t.trace.aborts && t.trace.stores <= u.trace.stores
    ensures !t.future ==> !u.future
    ensures forall i | 0 <= i < |more| :: !more[i].PollFuture? && !more[i].Enter?
  {
    hide Inv;
    hide Ended;
    hide Reaches;
    NewInv<T>();
    Runs(New(), run, t);
    LateForever(t, more, u);
  }

  /** However many wakes arrive in one poll epoch, the task is submitted once. */
  lemma {:induction false} StormSubmitsOnce<T(!new)>(t: Task<T>, storm: seq<Event<T>>, u: Task<T>)
    requires Inv(t) && t.gate.phase == Live && t.pc != Entered && Reaches(t, storm, u)
    requires storm != [] && forall i | 0 <= i < |storm| :: storm[i] == Wake(true)
    ensures u.tokens == 1 && u.pc == t.pc && u.gate.wakeSubmitted
    decreases |storm|
  {
    var m := Apply(t, storm[0]).value;
    Kept(t, storm[0]);
    assert m.pc == t.pc && m.gate.phase == Live && m.gate.wakeSubmitted && m.tokens == 1;
    if |storm| > 1 {
      hide Inv;
      StormSubmitsOnce(m, storm[1..], u);
    }
  }

  // ----- Aborts that do not decide the result ---------------------------------------------------------------

  /** A task in its first callback, about to take hold of the runtime core. */
  lemma FirstEntry<T(!new)>() returns (run: seq<Event<T>>, c: Task<T>)
    ensures Reaches(New(), run, c) && c.pc == Upgrading && c.gate == Gate(true, Live, false, true, false)
    ensures c.trace.aborts == 0 && c.trace.stores == [] && c.future && c.join.result.None?
    ensures !c.trace.suspendFailed && !c.trace.lost
  {
    var a := Apply(New<T>(), Spawn(true)).value;
    assert Reaches(New<T>(), [], New<T>());
    Snoc(New<T>(), [], New<T>(), Spawn(true));
    run := [] + [Spawn(true)];
    hide Reaches;
    var b := Apply(a, Enter).value;
    Snoc(New(), run, a, Enter);
    run := run + [Enter];
    c := Apply(b, StartPoll).value;
    Snoc(New(), run, b, StartPoll);
    run := run + [StartPoll];
  }

  /** The exception is real: an abort can win and still be overtaken by a failing suspend. */
  lemma AbortOvertaken<T(!new)>() returns (run: seq<Event<T>>, t: Task<T>)
    ensures Reaches(New(), run, t) && t.trace.suspendFailed && !t.trace.lost
    ensures t.trace.aborts == 1 && t.trace.stores == [Failed(RuntimeError)]
  {
    hide Reaches;
    var before, c := FirstEntry<T>();
    run, t := PolledOnce(before, c);
  }

  /** So is the other one: an abort can win after the callback began, and then the runtime core is gone. */
  lemma AbortLost<T(!new)>() returns (run: seq<Event<T>>, t: Task<T>)
    ensures Reaches(New(), run, t) && t.trace.lost && !t.trace.suspendFailed
    ensures t.trace.aborts == 1 && t.trace.stores == [Failed(RuntimeError)]
  {
    hide Reaches;
    var before, c := FirstEntry<T>();
    run, t := CoreGone(before, c);
  }

  lemma CoreGone<T(!new)>(before: seq<Event<T>>, c: Task<T>) returns (run: seq<Event<T>>, t: Task<T>)
    requires Reaches(New(), before, c) && c.pc == Upgrading && c.gate == Gate(true, Live, false, true, false)
    requires c.trace.aborts == 0 && c.trace.stores == [] && c.future && c.join.result.None?
    requires !c.trace.suspendFailed && !c.trace.lost
    ensures Reaches(New(), run, t) && t.trace.lost && !t.trace.suspendFailed
    ensures t.trace.aborts == 1 && t.trace.stores == [Failed(RuntimeError)]
  {
    hide Reaches;
    run := before;
    var d := Apply(c, Abort(true)).value;
    Snoc(New(), run, c, Abort(true));
    run := run + [Abort(true)];
    var e := Apply(d, Upgrade(false)).value;
    Snoc(New(), run, d, Upgrade(false));
    run := run + [Upgrade(false)];
    var f := Apply(e, DropFuture(false)).value;
    Snoc(New(), run, e, DropFuture(false));
    run := run + [DropFuture(false)];
    t := Apply(f, Store).value;
    Snoc(New(), run, f, Store);
    run := run + [Store];
  }

  lemma PolledOnce<T(!new)>(before: seq<Event<T>>, c: Task<T>) returns (run: seq<Event<T>>, t: Task<T>)
    requires Reaches(New(), before, c) && c.pc == Upgrading && c.gate == Gate(true, Live, false, true, false)
    requires c.trace.aborts == 0 && c.trace.stores == [] && c.future && c.join.result.None?
    requires !c.trace.suspendFailed && !c.trace.lost
    ensures Reaches(New(), run, t) && t.trace.suspendFailed && !t.trace.lost && t.trace.aborts == 1 && t.trace.stores == [Failed(RuntimeError)]
  {
    hide Reaches;
    run := before;
    var d := Apply(c, Upgrade(true)).value;
    Snoc(New(), run, c, Upgrade(true));
    run := run + [Upgrade(true)];
    var e := Apply(d, PollFuture(Pending)).value;
    Snoc(New(), run, d, PollFuture(Pending));
    run := run + [PollFuture(Pending)];
    var f := Apply(e, FinishPoll).value;
    Snoc(New(), run, e, FinishPoll);
    run := run + [FinishPoll];
    run, t := Overtaken(run, f);
  }

  lemma Overtaken<T(!new)>(before: seq<Event<T>>, f: Task<T>) returns (run: seq<Event<T>>, t: Task<T>)
    requires Reaches(New(), before, f) && f.pc == Suspending && f.gate == Gate(true, Live, false, false, false)
    requires f.trace.aborts == 0 && f.trace.stores == [] && f.future && f.join.result.None? && !f.trace.lost
    ensures Reaches(New(), run, t) && t.trace.suspendFailed && !t.trace.lost && t.trace.aborts == 1 && t.trace.stores == [Failed(RuntimeError)]
  {
    hide Reaches;
    run := before;
    var g := Apply(f, Abort(true)).value;
    Snoc(New(), run, f, Abort(true));
    run := run + [Abort(true)];
    var h := Apply(g, Suspend(false)).value;
    Snoc(New(), run, g, Suspend(false));
    run := run + [Suspend(false)];
    var i := Apply(h, FailSuspend).value;
    Snoc(New(), run, h, FailSuspend);
    run := run + [FailSuspend];
    var j := Apply(i, DropFuture(false)).value;
    Snoc(New(), run, i, DropFuture(false));
    run := run + [DropFuture(false)];
    t := Apply(j, Store).value;
    Snoc(New(), run, j, Store);
    run := run + [Store];
  }
}
