/** The callbacks of one task as an object, with the wakes, aborts and joins of other threads in between. */
module TaskRunner {
  import opened Prelude
  import opened Task

  /** What other threads do to a task in one go. */
  function Visited<T>(t: Task<T>, visits: seq<Event<T>>): Task<T>
    decreases |visits|
  {
    if visits == [] || !Outside(visits[0]) || !Enabled(t, visits[0]) || Apply(t, visits[0]).Fatal? then t
    else Visited(Apply(t, visits[0]).value, visits[1..])
  }

  /** Visitors move neither the callback nor the future, and never undo a cancellation. */
  ghost predicate AfterVisits<T>(t: Task<T>, u: Task<T>) {
    && Inv(u) && u.pc == t.pc && u.future == t.future && u.gate.phase == t.gate.phase && u.gate.polling == t.gate.polling
    && (t.gate.cancelRequested ==> u.gate.cancelRequested) && u.trace.stores == t.trace.stores
    && u.trace.suspendFailed == t.trace.suspendFailed && u.trace.lost == t.trace.lost
    && u.join.nativeCompleted == t.join.nativeCompleted
    && (t.gate.phase != Live ==> u.gate == t.gate && u.tokens == t.tokens)
  }

  lemma OneVisit<T>(t: Task<T>, e: Event<T>)
    requires Inv(t) && Outside(e) && Enabled(t, e)
    ensures Apply(t, e).Ok? && AfterVisits(t, Apply(t, e).value)
  {
    Kept(t, e);
    hide Inv;
  }

  lemma {:induction false} Visits<T>(t: Task<T>, visits: seq<Event<T>>)
    requires Inv(t)
    ensures AfterVisits(t, Visited(t, visits))
    decreases |visits|
  {
    hide Inv;
    hide Apply;
    hide Enabled;
    if visits != [] && Outside(visits[0]) && Enabled(t, visits[0]) {
      OneVisit(t, visits[0]);
      Visits(Apply(t, visits[0]).value, visits[1..]);
    }
  }

  /** Somebody who can reach the runtime aborts the task. */
  predicate Aborts<T(==)>(visits: seq<Event<T>>) {
    (forall i | 0 <= i < |visits| :: Outside(visits[i])) && Abort(true) in visits
  }

  lemma VisitEnabled<T>(t: Task<T>, e: Event<T>)
    requires Inv(t) && Outside(e) && !t.pc.Unspawned? && !t.pc.Unspawnable? && !t.join.nativeCompleted
    ensures Enabled(t, e)
  {
  }

  lemma AbortAsks<T>(t: Task<T>)
    requires t.gate.phase == Live && Enabled(t, Abort(true)) && Apply(t, Abort(true)).Ok?
    ensures Apply(t, Abort(true)).value.gate.cancelRequested
  {
  }

  /** An abort of a live task is seen by whoever looks at the gate afterwards. */
  lemma {:induction false} VisitsAbort<T>(t: Task<T>, visits: seq<Event<T>>)
    requires Inv(t) && t.gate.phase == Live && Running(t.pc) && !t.join.nativeCompleted && Aborts(visits)
    ensures Visited(t, visits).gate.cancelRequested
    decreases |visits|
  {
    hide Inv;
    hide Apply;
    hide Enabled;
    var e := visits[0];
    VisitEnabled(t, e);
    OneVisit(t, e);
    var u := Apply(t, e).value;
    assert forall i | 0 <= i < |visits[1..]| :: visits[1..][i] == visits[i + 1];
    if e == Abort(true) {
      AbortAsks(t);
      Visits(u, visits[1..]);
    } else {
      assert Abort(true) in visits[1..];
      VisitsAbort(u, visits[1..]);
    }
  }

  lemma LiveUnpublished<T>(t: Task<T>)
    requires Inv(t) && Running(t.pc)
    ensures t.gate.phase == Live && !t.join.nativeCompleted
  {
  }

  /** What visitors do at each point at which the callback holds no lock. */
  datatype Visitors<T> = Visitors(
    beforePoll: seq<Event<T>>, duringPoll: seq<Event<T>>, beforeSuspend: seq<Event<T>>, afterSuspend: seq<Event<T>>,
    beforeStore: seq<Event<T>>)

  /** How one run of the callback goes where the model does not decide it. */
  datatype Luck<T> = Luck(runtime: bool, polled: Polled<T>, suspends: bool, dropPanics: bool)

  /** What a poll leaves to store: an abort that came in time wins over whatever the future did. */
  function EndOf<T>(polled: Polled<T>, cancelled: bool): JoinResult<T> {
    if cancelled then Failed(Cancelled)
    else
      match polled
      case Pending => Failed(Cancelled)
      case Done(v) => Value(v)
      case Threw => Failed(Panicked)
  }

  /** A panic of the future's destructor replaces its value and nothing else. */
  function Dropped<T>(end: JoinResult<T>, panics: bool): JoinResult<T> {
    if panics && end.Value? then Failed(Panicked) else end
  }

  class TaskRunner<T> {
    var t: Task<T>

    constructor ()
      ensures t == New() && Inv(t)
    {
      t := New();
      new;
      NewInv<T>();
    }

    /** One step of the callback. */
    method Step(e: Event<T>)
      requires Inv(t) && Enabled(t, e)
      modifies this
      ensures Apply(old(t), e) == Ok(t) && Inv(t)
    {
      Kept(t, e);
      t := Apply(t, e).value;
    }

    method Visit(visits: seq<Event<T>>)
      requires Inv(t)
      modifies this
      ensures t == Visited(old(t), visits) && AfterVisits(old(t), t)
    {
      Visits(t, visits);
      t := Visited(t, visits);
    }

    /** The end of every terminal branch: the future is dropped first, then the result is stored. */
    method End(dropPanics: bool, v: Visitors<T>)
      requires Inv(t) && t.pc.Dropping?
      modifies this
      ensures Inv(t) && t.pc == Over && !t.future && t.gate.phase.Terminal?
      ensures t.trace.stores == [Dropped(old(t).pc.end, dropPanics)]
      ensures t.gate.cancelRequested == old(t).gate.cancelRequested && t.gate.task
      ensures t.trace.suspendFailed == old(t).trace.suspendFailed && t.trace.lost == old(t).trace.lost
    {
      DroppingInert(t);
      hide Inv;
      Step(DropFuture(dropPanics));
      Visit(v.beforeStore);
      NothingStored(t);
      Step(Store);
    }

    /** The poll epoch opens, unless an abort came first or the runtime is gone. */
    method Open(runtime: bool, visits: seq<Event<T>>)
      requires Inv(t) && t.pc == Entered
      modifies this
      ensures Inv(t)
      ensures old(t.gate.cancelRequested) ==> t.pc == Dropping(Failed(Cancelled)) && t.gate.cancelRequested
      ensures !old(t.gate.cancelRequested) && runtime ==> t.pc == Polling && (Aborts(visits) ==> t.gate.cancelRequested)
      ensures !old(t.gate.cancelRequested) && !runtime ==> t.pc == Dropping(Failed(RuntimeError))
    {
      NotYet(t);
      hide Inv;
      Step(StartPoll);
      if t.pc.Upgrading? {
        LiveUnpublished(t);
        if Aborts(visits) {
          VisitsAbort(t, visits);
        }
        Visit(visits);
        Step(Upgrade(runtime));
      }
    }

    /** The last operation of a pending poll: the task is suspended, or ends because it cannot be. */
    method Park(ok: bool, v: Visitors<T>) returns (suspended: bool)
      requires Inv(t) && t.pc == Suspending
      modifies this
      ensures Inv(t) && suspended == ok
      ensures t.pc == if ok then Idle else Dropping(Failed(RuntimeError))
    {
      hide Inv;
      hide Visited;
      Visit(v.beforeSuspend);
      Step(Suspend(ok));
      if !ok {
        Visit(v.afterSuspend);
        Step(FailSuspend);
      }
      suspended := ok;
    }

    /** The future is polled and the epoch closes; false means that the task must end as `t.pc` says. */
    method Poll(luck: Luck<T>, v: Visitors<T>) returns (suspended: bool)
      requires Inv(t) && t.pc == Polling
      modifies this
      ensures Inv(t)
      ensures suspended ==> t.pc == Idle && luck.polled.Pending? && luck.suspends
      ensures !suspended ==> t.pc.Dropping?
      ensures old(t.gate.cancelRequested) || Aborts(v.duringPoll) ==> !suspended && t.pc.end == Failed(Cancelled)
      ensures !suspended && (luck.polled.Pending? ==> luck.suspends) ==> t.pc.end == EndOf(luck.polled, t.gate.cancelRequested)
    {
      hide Inv;
      hide Visited;
      Step(PollFuture(luck.polled));
      LiveUnpublished(t);
      if Aborts(v.duringPoll) {
        VisitsAbort(t, v.duringPoll);
      }
      Visit(v.duringPoll);
      Step(FinishPoll);
      if t.pc.Dropping? {
        return false;
      }
      suspended := Park(luck.suspends, v);
    }

    /**
      `run_once`, for a task whose callback has just been entered.  It polls once, unless an abort
      came first; it either suspends with the future in place, which an abort that came before the
      poll was closed rules out, or ends with the future dropped and one result stored, which says
      cancelled exactly if an abort was requested by the time the poll was closed.
     */
    method RunOnce(luck: Luck<T>, v: Visitors<T>) returns (ended: bool)
      requires Inv(t) && t.pc == Entered
      modifies this
      ensures Inv(t)
      ensures !ended ==> t.pc == Idle && t.future && t.trace.stores == [] && t.gate.phase == Live
      ensures ended ==> t.pc == Over && !t.future && |t.trace.stores| == 1 && t.gate.task
      ensures old(t.gate.cancelRequested) ==> ended && t.trace.stores == [Failed(Cancelled)]
      ensures ended && luck.runtime && (luck.polled.Pending? ==> luck.suspends) ==>
                t.trace.stores == [Dropped(EndOf(luck.polled, t.gate.cancelRequested), luck.dropPanics)]
      ensures !ended ==> luck.runtime && luck.polled.Pending? && luck.suspends
      ensures luck.runtime && (Aborts(v.beforePoll) || Aborts(v.duringPoll)) ==> ended && t.trace.stores == [Failed(Cancelled)]
    {
      hide Inv;
      Open(luck.runtime, v.beforePoll);
      if t.pc == Polling {
        var suspended := Poll(luck, v);
        if suspended {
          NotYet(t);
          return false;
        }
      }
      End(luck.dropPanics, v);
      ended := true;
    }

    /** The completed callback: the descriptor goes first, and only then the result is published. */
    method Complete(between: seq<Event<T>>)
      requires Inv(t) && t.pc == Over
      modifies this
      ensures Inv(t) && t.pc == Removed && t.gate.phase == Destroyed && t.join.nativeCompleted
      ensures t.trace.stores == old(t).trace.stores && t.tokens == old(t).tokens
      ensures t.joinWaiting ==> t.joinWoken
    {
      hide Inv;
      Step(Retire);
      Visit(between);
      Step(Publish);
      Step(Remove);
      JoinersWoken(t);
    }
  }

  lemma DroppingInert<T>(t: Task<T>)
    requires Inv(t) && t.pc.Dropping?
    ensures t.trace.stores == [] && t.gate.phase != Live && t.gate.task
  {
  }

  lemma NothingStored<T>(t: Task<T>)
    requires Inv(t) && t.pc.Storing?
    ensures t.trace.stores == [] && t.gate.phase.Terminal? && t.gate.task
  {
  }

  /** A task that still runs has its future and no result, and neither way of failing has happened. */
  lemma NotYet<T>(t: Task<T>)
    requires Inv(t) && Running(t.pc)
    ensures t.future && t.trace.stores == [] && t.gate.phase == Live && !t.trace.suspendFailed && !t.trace.lost
  {
  }

  lemma JoinersWoken<T>(t: Task<T>)
    requires Inv(t) && t.pc == Removed
    ensures t.joinWaiting ==> t.joinWoken
    ensures t.gate.phase == Destroyed && t.join.nativeCompleted
  {
  }
}
