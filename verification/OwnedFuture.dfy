/**
  The future of one completion-native operation against the handler that completes it.

  The future and its handler share a result slot, a completion flag, a cancellation flag and a waker
  slot.  Every access to one of them is one atomic step here; the steps of the polling task and of
  the thread that runs the handler interleave freely.
 */
module OwnedFuture {
  import opened Prelude

  /** Where the handler is: in the future, with the driver, or so far through its completion. */
  datatype HandlerPc = Local | Driving | Stored | Published | Finished

  /** Where the future is: outside `poll`, between two accesses of one, or in its drop. */
  datatype FuturePc = Idle | Entered | Registering | Rechecking | Parked | Completed | Dropping | Dropped

  /**
    `queued` and `done` are the future's own fields.  `woken` tells whether the task was woken since
    its last poll began; `stored` and `delivered` are history.
   */
  datatype Cell<T> = Cell(
    fpc: FuturePc, hpc: HandlerPc, queued: bool, done: bool,
    result: Option<T>, completed: bool, cancelled: bool, waker: bool, woken: bool,
    stored: seq<T>, delivered: seq<T>)

  datatype Event<T> =
    | Enqueue(accepted: bool, closed: T)
    | Enter
    | Check
    | Register
    | Recheck
    | BeginDrop
    | CancelDriver
    | Store(value: T)
    | Publish
    | Wake

  datatype Outcome<+S> = Done(value: S) | Panic(reason: string)

  function New<T>(): Cell<T> {
    Cell(Idle, Local, false, false, None, false, false, false, false, [], [])
  }

  predicate Enabled<T>(c: Cell<T>, e: Event<T>) {
    match e
    case Enqueue(_, _) => c.fpc == Idle && !c.queued
    case Enter => (c.fpc == Idle || c.fpc == Parked) && c.queued
    case Check => c.fpc == Entered
    case Register => c.fpc == Registering
    case Recheck => c.fpc == Rechecking
    case BeginDrop => c.fpc in {Idle, Parked, Completed}
    case CancelDriver => c.fpc == Dropping
    case Store(_) => c.hpc == Driving
    case Publish => c.hpc == Stored
    case Wake => c.hpc == Published
  }

  /** The result is taken, or the next access of `poll` follows. */
  function TakeOr<T>(c: Cell<T>, next: FuturePc): Outcome<Cell<T>> {
    if !c.completed then Done(c.(fpc := next))
    else if c.result.None? then Panic("published owned result missing")
    else Done(c.(fpc := Completed, done := true, result := None, delivered := c.delivered + [c.result.value]))
  }

  function Apply<T>(c: Cell<T>, e: Event<T>): Outcome<Cell<T>>
    requires Enabled(c, e)
  {
    match e
    // the first poll hands the handler to the driver; a closed driver hands it back and it fails here
    case Enqueue(accepted, closed) =>
      if c.hpc != Local then Panic("unsubmitted owned handler")
      else if accepted then Done(c.(fpc := Entered, hpc := Driving, queued := true))
      else Done(c.(fpc := Entered, hpc := Finished, result := Some(closed), completed := true, stored := c.stored + [closed]))
    case Enter => Done(c.(fpc := Entered, woken := false))
    case Check => TakeOr(c, Registering)
    case Register => Done(c.(fpc := Rechecking, waker := true))
    case Recheck => TakeOr(c, Parked)
    case BeginDrop => if c.queued && !c.done then Done(c.(fpc := Dropping, cancelled := true)) else Done(c.(fpc := Dropped))
    case CancelDriver => Done(c.(fpc := Dropped))
    case Store(v) => Done(c.(hpc := Stored, result := Some(v), stored := c.stored + [v]))
    case Publish => Done(c.(hpc := Published, completed := true))
    case Wake => Done(c.(hpc := Finished, waker := false, woken := c.woken || c.waker))
  }

  // ----- The invariant ----------------------------------------------------------------------------------

  ghost predicate ResultOk<T>(c: Cell<T>) {
    && (c.completed <==> c.hpc in {Published, Finished})
    && (c.done ==> c.completed && c.result.None? && c.delivered == c.stored && |c.stored| == 1)
    && (!c.done ==> c.delivered == [] && c.stored == (if c.result.Some? then [c.result.value] else []))
    && (c.result.Some? <==> !c.done && c.hpc in {Stored, Published, Finished})
  }

  ghost predicate PlaceOk<T>(c: Cell<T>) {
    && (c.queued ==> c.hpc != Local)
    && (c.fpc == Idle ==> !c.queued && c.hpc == Local)
    && (c.fpc in {Registering, Rechecking, Parked} ==> c.queued)
    && (c.fpc in {Idle, Entered, Registering, Rechecking, Parked} ==> !c.done)
    && (c.fpc == Completed ==> c.done)
    && (c.hpc == Local ==> c.fpc in {Idle, Dropped})
    && (!c.queued && c.hpc != Local ==> c.hpc == Finished)
    && (c.cancelled ==> c.fpc in {Dropping, Dropped})
    && (c.fpc == Dropping ==> c.cancelled)
    && (c.cancelled ==> c.queued)
    && (c.fpc == Dropped && c.queued && !c.done ==> c.cancelled)
  }

  /** A parked future is still registered, or its task has been woken. */
  ghost predicate WakerOk<T>(c: Cell<T>) {
    && (c.fpc == Rechecking ==> c.waker || c.hpc == Finished)
    && (c.fpc == Parked ==> c.waker || c.woken)
    && (c.hpc == Finished && c.fpc == Parked ==> c.woken)
  }

  ghost predicate Inv<T>(c: Cell<T>) {
    ResultOk(c) && PlaceOk(c) && WakerOk(c)
  }

  lemma Kept<T>(c: Cell<T>, e: Event<T>)
    requires Inv(c) && Enabled(c, e)
    ensures Apply(c, e).Done? && Inv(Apply(c, e).value)
  {
    assert c.stored == [] ==> forall v: T :: c.stored + [v] == [v];
    assert c.delivered == [] ==> forall v: T :: c.delivered + [v] == [v];
  }

  ghost predicate Reaches<T(!new)>(c: Cell<T>, run: seq<Event<T>>, d: Cell<T>)
    decreases |run|
  {
    if run == [] then d == c
    else Enabled(c, run[0]) && Apply(c, run[0]).Done? && Reaches(Apply(c, run[0]).value, run[1..], d)
  }

  lemma {:induction false} Runs<T(!new)>(c: Cell<T>, run: seq<Event<T>>, d: Cell<T>)
    requires Inv(c) && Reaches(c, run, d)
    ensures Inv(d)
    decreases |run|
  {
    hide Inv;
    hide Apply;
    if run != [] {
      Kept(c, run[0]);
      Runs(Apply(c, run[0]).value, run[1..], d);
    }
  }

  /** What every run of a future and its handler keeps, in the words of its users. */
  ghost predicate Promised<T>(c: Cell<T>) {
    // nobody sleeps through the completion of the operation
    && (c.fpc == Parked && c.hpc == Finished ==> c.woken)
    // the result is stored at most once, and delivered at most once and unchanged
    && |c.stored| <= 1 && c.delivered <= c.stored
    && (c.done ==> |c.delivered| == 1)
    // a future that was never polled leaves no trace
    && (c.fpc == Dropped && c.hpc == Local ==> !c.cancelled && c.stored == [])
    // a queued operation that is dropped unfinished has its cancellation flag set before the driver is asked
    && (c.fpc in {Dropping, Dropped} && c.queued && !c.done ==> c.cancelled)
  }

  lemma AlwaysPromised<T(!new)>(run: seq<Event<T>>, c: Cell<T>)
    requires Reaches(New(), run, c)
    ensures Promised(c)
    ensures forall e | Enabled(c, e) :: Apply(c, e).Done?
  {
    hide Reaches;
    hide Apply;
    Runs(New(), run, c);
    forall e | Enabled(c, e)
      ensures Apply(c, e).Done?
    {
      Kept(c, e);
    }
  }

  // ----- `poll`, with the handler running in between ------------------------------------------------------

  /** The next step of the handler; a handler with nothing left to do stands still. */
  function HandlerStep<T>(c: Cell<T>, v: T): Cell<T> {
    match c.hpc
    case Driving => Apply(c, Store(v)).value
    case Stored => Apply(c, Publish).value
    case Published => Apply(c, Wake).value
    case _ => c
  }

  function HandlerRuns<T>(c: Cell<T>, n: nat, v: T): Cell<T>
    decreases n
  {
    if n == 0 then c else HandlerRuns(HandlerStep(c, v), n - 1, v)
  }

  /** What the future can rely on while the handler runs. */
  ghost predicate Later<T>(c: Cell<T>, d: Cell<T>) {
    && Inv(d) && d.fpc == c.fpc && d.queued == c.queued && d.done == c.done && d.cancelled == c.cancelled
    && (c.completed ==> d.completed) && (c.stored != [] ==> d.stored == c.stored)
  }

  lemma {:induction false} HandlerKeeps<T>(c: Cell<T>, n: nat, v: T)
    requires Inv(c)
    ensures Later(c, HandlerRuns(c, n, v))
    decreases n
  {
    if n > 0 {
      match c.hpc {
        case Driving => Kept(c, Store(v));
        case Stored => Kept(c, Publish);
        case Published => Kept(c, Wake);
        case _ =>
      }
      assert Later(c, HandlerStep(c, v));
      hide Inv;
      hide HandlerStep;
      HandlerKeeps(HandlerStep(c, v), n - 1, v);
    }
  }

  datatype Poll<+T> = Ready(value: T) | Pending

  /** The future as an object; `cell` holds its own fields and what it shares with its handler. */
  class OwnedOp<T> {
    var cell: Cell<T>

    ghost predicate Valid()
      reads this
    {
      Inv(cell) && cell.fpc in {Idle, Parked, Completed, Dropped}
    }

    constructor ()
      ensures Valid() && cell == New()
    {
      cell := New();
    }

    /** One atomic access of the future itself. */
    method Take(e: Event<T>)
      requires Inv(cell) && Enabled(cell, e)
      modifies this
      ensures Apply(old(cell), e) == Done(cell) && Inv(cell)
    {
      Kept(cell, e);
      cell := Apply(cell, e).value;
    }

    /** The handler gets to run `n` steps, and stores `v` if it has no result yet. */
    method Interfere(n: nat, v: T)
      requires Inv(cell)
      modifies this
      ensures cell == HandlerRuns(old(cell), n, v) && Later(old(cell), cell)
    {
      HandlerKeeps(cell, n, v);
      cell := HandlerRuns(cell, n, v);
    }

    /** A check of the completion flag, which takes the result if it is set. */
    method CheckResult(e: Event<T>) returns (r: Option<T>)
      requires Inv(cell) && Enabled(cell, e) && (e.Check? || e.Recheck?)
      modifies this
      ensures Inv(cell) && cell.queued == old(cell.queued)
      ensures r.Some? == old(cell.completed)
      ensures r.Some? ==> cell.fpc == Completed && cell.stored == [r.value] == cell.delivered && old(cell.stored) == cell.stored
      ensures r.None? ==> cell == old(cell).(fpc := if e.Check? then Registering else Parked)
    {
      Taken(cell, if e.Check? then Registering else Parked);
      Kept(cell, e);
      r := if cell.completed then Some(cell.result.value) else None;
      cell := Apply(cell, e).value;
    }

    /** The first poll offers the handler to the driver; a later one only starts over. */
    method Start(open: bool, closed: T)
      requires Valid() && cell.fpc in {Idle, Parked}
      modifies this
      ensures Inv(cell) && cell.fpc == Entered && cell.queued == (old(cell.queued) || open)
      ensures !old(cell.queued) && !open ==> cell.completed && cell.stored == [closed]
      ensures old(cell.completed) ==> cell.completed
    {
      if !cell.queued {
        FirstPoll(cell, open, closed);
        Take(Enqueue(open, closed));
      } else {
        Take(Enter);
      }
    }

    /**
      `poll`, while the handler runs `h0`, `h1` and `h2` steps between its accesses.  It returns the
      one result there is, or leaves the task registered or already woken, whatever the handler does.
     */
    method PollOnce(open: bool, closed: T, v: T, h0: nat, h1: nat, h2: nat) returns (r: Poll<T>)
      requires Valid() && cell.fpc in {Idle, Parked}
      modifies this
      ensures Valid() && cell.queued == (old(cell.queued) || open)
      ensures r.Ready? ==> cell.fpc == Completed && cell.stored == [r.value] == cell.delivered
      ensures r.Pending? ==> cell.fpc == Parked && (cell.waker || cell.woken)
      ensures !old(cell.queued) && !open ==> r == Ready(closed)
      ensures old(cell.completed) ==> r.Ready?
    {
      hide Inv;
      hide HandlerRuns;
      Start(open, closed);
      Interfere(h0, v);
      var x := CheckResult(Check);
      if x.Some? {
        return Ready(x.value);
      }
      Interfere(h1, v);
      Take(Register);
      Interfere(h2, v);
      x := CheckResult(Recheck);
      if x.Some? {
        return Ready(x.value);
      }
      ParkedWakes(cell);
      r := Pending;
    }

    /** `drop`: the cancellation flag is set before the driver is asked to cancel, and only for queued work. */
    method Drop() returns (asked: bool)
      requires Valid() && cell.fpc != Dropped
      modifies this
      ensures Valid() && cell.fpc == Dropped
      ensures asked == (old(cell.queued) && !old(cell.done)) && (asked ==> cell.cancelled)
    {
      Kept(cell, BeginDrop);
      cell := Apply(cell, BeginDrop).value;
      asked := cell.fpc == Dropping;
      if asked {
        Kept(cell, CancelDriver);
        cell := Apply(cell, CancelDriver).value;
      }
    }
  }

  lemma FirstPoll<T>(c: Cell<T>, open: bool, closed: T)
    requires Inv(c) && c.fpc in {Idle, Parked} && !c.queued
    ensures c.fpc == Idle && Apply(c, Enqueue(open, closed)).Done? && Inv(Apply(c, Enqueue(open, closed)).value)
    ensures !open ==> Apply(c, Enqueue(open, closed)).value.stored == [closed]
  {
    assert c.stored == [];
    assert c.stored + [closed] == [closed];
    Kept(c, Enqueue(open, closed));
  }

  lemma Taken<T>(c: Cell<T>, next: FuturePc)
    requires Inv(c) && c.fpc in {Entered, Rechecking}
    ensures c.completed ==> c.result.Some? && c.stored == [c.result.value] && c.delivered == []
    ensures c.completed ==> TakeOr(c, next).value.delivered == [c.result.value]
  {
  }

  lemma ParkedWakes<T>(c: Cell<T>)
    requires Inv(c) && c.fpc == Parked
    ensures c.waker || c.woken
  {
  }
}
