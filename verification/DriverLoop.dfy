/**
  The run loop of the io_uring driver, its park/notify gate, and the threads that feed it.

  A pass stages and submits, then wakes whoever waits for admission unless owned work goes first, then
  reaps and dispatches; the driver then decides how to wait.

  `owing` holds the threads that have given the driver work and have not called `notify` since.
 */
module DriverLoop {
  import opened Prelude
  import opened Ledger
  import L = Ledger
  import opened Traces
  import opened Safety
  import opened Shutdown
  import G = ParkGate
  import A = Accounts
  import B = BookSteps
  import Shape
  import S = Slots

  type Thread = nat

  /** Where the driver task is; `todo` are the registered submissions the pass has yet to look at. */
  datatype Pc =
    | NotStarted
    | InPass
    | Waking(todo: set<SubId>)
    | Dispatching
    | Decided(d: Decision)
    | Parking(d: Decision)
    | Resumed
    | Stopping
    | RingDropped
    | Finished
    | Retired

  datatype Loop = Loop(l: Ledger, gate: G.Gate, pc: Pc, ring: bool, native: G.Native, owing: set<Thread>)

  datatype Event =
    | Start
    | Producer(t: Thread, a: Action)
    | Notify(t: Thread)
    | Kernel(c: S.Cqe)
    | PassStep(a: Action)
    | EndStaging
    | Visit(sub: SubId)
    | EndWaking
    | Choose(backlog: bool)
    | TryPark
    | Return(woken: bool)
    | MarkRunning
    | DropRing
    | MarkTerminal
    | Retire

  /** Steps that other threads take on the driver's data. */
  predicate ByProducer(a: Action) {
    !(a.DoStageOwnedCancel? || a.DoPopOwned? || a.DoStageOwned? || a.DoPushBack? || a.DoReap? || a.DoDispatch?
      || a.DoFinishHeld? || a.DoPost? || a.DoWakeAdmission?)
  }

  /** Steps of the first section of a pass. */
  predicate Stages(a: Action) {
    a.DoStageCancel? || a.DoStageOwnedCancel? || a.DoPopOwned? || a.DoStageOwned? || a.DoPushBack? || a.DoAccept?
  }

  /** Steps of the rest of a pass, which includes the cancellation of an overflowing submission. */
  predicate Dispatches(a: Action) {
    a.DoReap? || a.DoDispatch? || a.DoFinishHeld? || a.DoRequestDelivery? || a.DoQueueCancel?
  }

  /** Steps after which the source calls `notify` before the calling thread returns. */
  predicate Owes(a: Action) {
    a.DoStageOriginal? || a.DoAwaitAdmission? || a.DoQueueCancel? || a.DoEnqueue? || (a.DoCancelOwned? && a.t.Some?)
    || a.DoShutdown?
  }

  function ModeOf(d: Decision): G.Mode
    requires d != Stop
  {
    match d
    case Yield => G.Yielding
    case Wait => G.Timed
    case Pause => G.Untimed
  }

  ghost predicate Enabled(s: Loop, e: Event) {
    match e
    case Start => s.pc == NotStarted
    case Producer(_, a) => ByProducer(a) && L.Enabled(s.l, a)
    case Notify(_) => true
    case Kernel(c) => L.Enabled(s.l, DoPost(c))
    case PassStep(a) =>
      ((s.pc == InPass && Stages(a)) || (s.pc == Dispatching && Dispatches(a))) && L.Enabled(s.l, a)
    case EndStaging => s.pc == InPass && Unlocked(s.l)
    case Visit(sub) => s.pc.Waking? && sub in s.pc.todo
    case EndWaking => s.pc == Waking({})
    case Choose(_) => s.pc == Dispatching && AtRest(s.l)
    case TryPark => s.pc.Decided? && s.pc.d != Stop
    case Return(woken) => s.pc.Parking? && s.pc.d != Stop && G.CanReturn(ModeOf(s.pc.d), s.native, woken)
    case MarkRunning => s.pc == Resumed
    case DropRing => s.pc == Stopping
    case MarkTerminal => s.pc == RingDropped
    // the native completion callback runs after the task body has returned
    case Retire => s.pc == Finished
  }

  function TryParkStep(s: Loop): Loop
    requires s.pc.Decided? && s.pc.d != Stop
  {
    var (gate, blocked) := G.TryPark(s.gate, ModeOf(s.pc.d));
    s.(gate := gate, pc := if blocked then Parking(s.pc.d) else InPass)
  }

  function ChooseStep(s: Loop, backlog: bool): Loop {
    var d := Decide(s.l, backlog);
    s.(pc := if d == Stop then Stopping else Decided(d))
  }

  function Lift(s: Loop, o: Outcome<Ledger>): Outcome<Loop> {
    match o
    case Done(m) => Done(s.(l := m))
    case Abort(why) => Abort(why)
  }

  /** A step on the ring finds it missing once it was dropped. */
  predicate NeedsRing(a: Action) {
    a.DoStageOriginal? || a.DoStageCancel? || a.DoStageOwnedCancel? || a.DoPopOwned? || a.DoStageOwned? || a.DoPushBack?
    || a.DoAccept? || a.DoReap? || a.DoYield? || a.DoFinishIterator?
  }

  ghost function Apply(s: Loop, e: Event): Outcome<Loop>
    requires Enabled(s, e)
  {
    match e
    case Start => Done(s.(gate := s.gate.(phase := G.Running, raw := true), pc := InPass))
    case Producer(t, a) =>
      if NeedsRing(a) && !s.ring then Abort("ring missing during admission")
      else Lift(s.(owing := if Owes(a) then s.owing + {t} else s.owing), L.Apply(s.l, a))
    case Notify(t) =>
      (match G.Notify(s.gate, s.native)
       case Done(r) => Done(s.(gate := r.0, native := r.1, owing := s.owing - {t}))
       case Abort(why) => Abort(why))
    case Kernel(c) => Lift(s, L.Apply(s.l, DoPost(c)))
    case PassStep(a) =>
      if NeedsRing(a) && !s.ring then Abort("ring missing during submit") else Lift(s, L.Apply(s.l, a))
    case EndStaging => Done(s.(pc := if OwnedFirst(s.l) then Dispatching else Waking(s.l.flags.registry)))
    case Visit(sub) =>
      var next := s.(pc := Waking(s.pc.todo - {sub}));
      if HasSub(s.l, sub) && !s.l.subs[sub].iteratorFinished then Lift(next, L.Apply(s.l, DoWakeAdmission(sub)))
      else Done(next)
    case EndWaking => Done(s.(pc := Dispatching))
    case Choose(backlog) => Done(ChooseStep(s, backlog))
    case TryPark => Done(TryParkStep(s))
    case Return(woken) => Done(s.(pc := Resumed, native := G.Return(ModeOf(s.pc.d), s.native, woken)))
    case MarkRunning => Done(s.(gate := s.gate.(phase := G.Running), pc := InPass))
    case DropRing => Done(s.(ring := false, pc := RingDropped))
    case MarkTerminal => Done(s.(gate := s.gate.(phase := G.Terminal), pc := Finished))
    case Retire =>
      (match G.Retire(s.gate)
       case Done(g) => Done(s.(gate := g, pc := Retired))
       case Abort(why) => Abort(why))
  }

  function Init(cfg: Config): Loop {
    Loop(L.Init(cfg), G.Gate(G.Building, false, false), NotStarted, true, G.Native(0, 0), {})
  }

  // ----- The invariant --------------------------------------------------------------------------------

  function PositionOf(pc: Pc): G.Position {
    match pc
    case NotStarted => G.Unborn
    case Parking(d) => if d == Stop then G.Awake else G.Blocking(ModeOf(d))
    case Resumed => G.Back
    case Finished => G.Ended
    case Retired => G.Gone
    case _ => G.Awake
  }

  predicate Idle(l: Ledger) {
    !Active(l) && !l.flags.shutdown
  }

  predicate Over(pc: Pc) {
    pc in {Stopping, RingDropped, Finished, Retired}
  }

  /** What a decision rested on still holds, or the driver has been told, or somebody is about to tell it. */
  ghost predicate DecisionOk(l: Ledger, pc: Pc, told: bool) {
    (pc.Decided? || pc.Parking?) ==>
      && (pc.d == Pause ==> told || Idle(l))
      && (pc.d == Wait ==> told || !Unstaged(l))
  }

  /** The future of this submission sleeps until it is woken to yield or stage another entry. */
  predicate Stranded(l: Ledger, sub: SubId) {
    HasSub(l, sub) && l.cursors[sub].active && l.subs[sub].waiters.admission && !l.subs[sub].iteratorFinished
  }

  ghost predicate NoneStranded(l: Ledger, but: set<SubId>) {
    forall sub | sub in l.subs && sub !in but :: !Stranded(l, sub)
  }

  /** Whoever waits for room will be looked at by this pass, or by another one that is bound to come. */
  ghost predicate AdmissionOk(l: Ledger, pc: Pc, told: bool) {
    && (pc.Waking? ==> told || NoneStranded(l, pc.todo))
    && (pc == Dispatching ==> told || OwnedFirst(l) || NoneStranded(l, {}))
    && ((pc.Decided? || pc.Parking?) && pc.d != Yield ==> told || NoneStranded(l, {}))
  }

  predicate Busy(pc: Pc) {
    pc == InPass || pc.Waking? || pc == Dispatching
  }

  ghost predicate StopOk(l: Ledger, pc: Pc, ring: bool) {
    && (ring <==> pc !in {RingDropped, Finished, Retired})
    && (Over(pc) ==> l.flags.shutdown && Shutdown.Work(l) == 0)
  }

  predicate Told(s: Loop) {
    s.gate.notified || s.owing != {}
  }

  ghost predicate LoopInv(s: Loop) {
    && Inv(s.l)
    && G.GateOk(s.gate, PositionOf(s.pc), s.native.pause)
    && ((s.pc.Decided? || s.pc.Parking?) ==> s.pc.d != Stop)
    && (!Busy(s.pc) ==> AtRest(s.l))
    && DecisionOk(s.l, s.pc, Told(s))
    && AdmissionOk(s.l, s.pc, Told(s))
    && StopOk(s.l, s.pc, s.ring)
  }

  lemma InitLoopInv(cfg: Config)
    ensures LoopInv(Init(cfg))
  {
    InitInv(cfg);
  }

  // ----- Steps on the data ----------------------------------------------------------------------------

  /** Steps that cannot give an idle driver anything to do, nor make it wait for an SQ entry. */
  lemma QuietStep(l: Ledger, a: Action)
    requires L.Enabled(l, a) && L.Apply(l, a).Done? && (ByProducer(a) || a.DoPost?) && !Owes(a)
    requires |l.ring.sq| == |l.ring.staged|
    ensures Idle(l) ==> Idle(L.Apply(l, a).value)
    ensures !Unstaged(l) ==> !Unstaged(L.Apply(l, a).value)
  {
  }

  lemma StrandedByRing(l: Ledger, a: Action, sub: SubId)
    requires L.Enabled(l, a) && L.Apply(l, a).Done? && (a.DoAccept? || a.DoDispatch?)
    requires Stranded(L.Apply(l, a).value, sub)
    ensures Stranded(l, sub)
  {
    hide RetireOriginal;
    hide RetireCancel;
    hide RetireOwned;
    hide SeeOwned;
    hide AcceptFront;
    hide Drop;
    hide Sub.BufferOriginal;
    hide Sub.CountOriginal;
    hide Sub.BufferCancel;
    hide Sub.CountCancel;
    hide Sub.Drained;
  }

  lemma StrandedBySub(l: Ledger, a: Action, sub: SubId)
    requires L.Enabled(l, a) && L.Apply(l, a).Done? && TouchesSubs(a) && !a.DoAwaitAdmission?
    requires !a.DoAccept? && !a.DoDispatch?
    requires Stranded(L.Apply(l, a).value, sub)
    ensures Stranded(l, sub)
  {
  }

  /** Only a poll that registers its waiter makes anybody wait for admission. */
  lemma StrandedBefore(l: Ledger, a: Action, sub: SubId)
    requires L.Enabled(l, a) && L.Apply(l, a).Done? && !a.DoAwaitAdmission? && Stranded(L.Apply(l, a).value, sub)
    ensures Stranded(l, sub)
  {
    hide L.Enabled;
    hide L.Apply;
    if a.DoAccept? || a.DoDispatch? {
      StrandedByRing(l, a, sub);
    } else if TouchesSubs(a) {
      StrandedBySub(l, a, sub);
    } else {
      SubsUntouched(l, a);
    }
  }

  lemma NoneStrandedStays(l: Ledger, a: Action, but: set<SubId>)
    requires L.Enabled(l, a) && L.Apply(l, a).Done? && !a.DoAwaitAdmission? && NoneStranded(l, but)
    requires l.subs.Keys == l.cursors.Keys
    ensures NoneStranded(L.Apply(l, a).value, but)
  {
    hide L.Enabled;
    hide L.Apply;
    hide Stranded;
    forall sub | sub in L.Apply(l, a).value.subs && sub !in but
      ensures !Stranded(L.Apply(l, a).value, sub)
    {
      if Stranded(L.Apply(l, a).value, sub) {
        StrandedBefore(l, a, sub);
        StrandedKnown(l, sub);
      }
    }
  }

  lemma StrandedKnown(l: Ledger, sub: SubId)
    requires Stranded(l, sub)
    ensures sub in l.subs
  {
  }

  predicate TakesOwned(a: Action) {
    a.DoStageOwnedCancel? || a.DoPopOwned?
  }

  lemma OwnedByRing(l: Ledger, a: Action)
    requires L.Enabled(l, a) && L.Apply(l, a).Done? && (a.DoAccept? || a.DoDispatch?) && OwnedFirst(l)
    ensures OwnedFirst(L.Apply(l, a).value)
  {
    hide RetireOriginal;
    hide RetireCancel;
    hide RetireOwned;
    hide SeeOwned;
    hide AcceptFront;
    hide AcceptSubs;
    hide Drop;
    hide Sub.OnOriginal;
    hide Sub.OnCancel;
  }

  lemma OwnedBySub(l: Ledger, a: Action)
    requires L.Enabled(l, a) && L.Apply(l, a).Done? && TouchesSubs(a) && OwnedFirst(l)
    requires !a.DoAccept? && !a.DoDispatch?
    ensures OwnedFirst(L.Apply(l, a).value)
  {
  }

  lemma OwnedByRest(l: Ledger, a: Action)
    requires L.Enabled(l, a) && L.Apply(l, a).Done? && !TouchesSubs(a) && !TakesOwned(a) && OwnedFirst(l)
    ensures OwnedFirst(L.Apply(l, a).value)
  {
  }

  lemma OwnedStays(l: Ledger, a: Action)
    requires L.Enabled(l, a) && L.Apply(l, a).Done? && !TakesOwned(a) && OwnedFirst(l)
    ensures OwnedFirst(L.Apply(l, a).value)
  {
    hide L.Enabled;
    hide L.Apply;
    hide OwnedFirst;
    if a.DoAccept? || a.DoDispatch? {
      OwnedByRing(l, a);
    } else if TouchesSubs(a) {
      OwnedBySub(l, a);
    } else {
      OwnedByRest(l, a);
    }
  }

  /** A step of whatever thread outside the first section of a pass leaves nobody waiting unseen. */
  lemma AdmissionStays(l: Ledger, a: Action, pc: Pc, told: bool, told': bool)
    requires L.Enabled(l, a) && L.Apply(l, a).Done? && AdmissionOk(l, pc, told)
    requires l.subs.Keys == l.cursors.Keys
    requires (pc == Dispatching ==> !TakesOwned(a)) && (told || a.DoAwaitAdmission? ==> told')
    ensures AdmissionOk(L.Apply(l, a).value, pc, told')
  {
    hide L.Enabled;
    hide L.Apply;
    hide NoneStranded;
    hide OwnedFirst;
    if !told' {
      if pc.Waking? {
        NoneStrandedStays(l, a, pc.todo);
      } else if pc == Dispatching && OwnedFirst(l) {
        OwnedStays(l, a);
      } else if pc == Dispatching || ((pc.Decided? || pc.Parking?) && pc.d != Yield) {
        NoneStrandedStays(l, a, {});
      }
    }
  }

  lemma RestBySub(l: Ledger, a: Action)
    requires L.Enabled(l, a) && L.Apply(l, a).Done? && TouchesSubs(a) && !a.DoDispatch? && AtRest(l)
    ensures AtRest(L.Apply(l, a).value)
  {
  }

  lemma RestByRest(l: Ledger, a: Action)
    requires L.Enabled(l, a) && L.Apply(l, a).Done? && (ByProducer(a) || a.DoPost?) && !TouchesSubs(a) && AtRest(l)
    ensures AtRest(L.Apply(l, a).value)
  {
  }

  lemma RestStays(l: Ledger, a: Action)
    requires L.Enabled(l, a) && L.Apply(l, a).Done? && (ByProducer(a) || a.DoPost?) && AtRest(l)
    ensures AtRest(L.Apply(l, a).value)
  {
    hide L.Enabled;
    hide L.Apply;
    hide AtRest;
    if TouchesSubs(a) {
      RestBySub(l, a);
    } else {
      RestByRest(l, a);
    }
  }

  lemma SqMirrors(l: Ledger)
    requires Inv(l)
    ensures |l.ring.sq| == |l.ring.staged|
  {
    assert Shape.Ringed(l.ring, Shape.Boxes(l));
  }

  lemma NoRingNeeded(l: Ledger, a: Action)
    requires Quiescent(l) && !l.flags.accepting && ByProducer(a) && L.Enabled(l, a)
    ensures !NeedsRing(a)
  {
  }

  /** A step that needs the ring is never taken once the ring is gone. */
  lemma RingThere(l: Ledger, a: Action)
    requires Inv(l) && l.flags.shutdown && Shutdown.Work(l) == 0 && ByProducer(a) && L.Enabled(l, a)
    ensures !NeedsRing(a)
  {
    hide Inv;
    hide Shutdown.Work;
    hide L.Enabled;
    hide Quiescent;
    Guards(l);
    StoppedQuiet(l);
    NoRingNeeded(l, a);
  }

  lemma KnownSubs(l: Ledger)
    requires Inv(l)
    ensures l.subs.Keys == l.cursors.Keys
    ensures forall sub | sub in l.cursors && l.cursors[sub].active :: sub in l.flags.registry
  {
    hide Shape.Core;
    hide OpsOk;
    B.Known(l);
  }

  /** A step of another thread or of the kernel on the data. */
  ghost predicate DataStep(l: Ledger, a: Action) {
    (ByProducer(a) || a.DoPost?) && L.Enabled(l, a)
  }

  lemma DataStepKept(s: Loop, a: Action, owing: set<Thread>)
    requires LoopInv(s) && DataStep(s.l, a) && s.owing <= owing && (Owes(a) ==> owing != {})
    ensures L.Apply(s.l, a).Done? && LoopInv(s.(l := L.Apply(s.l, a).value, owing := owing))
  {
    hide Inv;
    hide Shutdown.Work;
    hide G.GateOk;
    hide L.Enabled;
    hide L.Apply;
    hide Idle;
    hide Unstaged;
    hide AtRest;
    hide AdmissionOk;
    Kept(s.l, a);
    SqMirrors(s.l);
    KnownSubs(s.l);
    AdmissionStays(s.l, a, s.pc, Told(s), Told(s.(owing := owing)));
    if !Busy(s.pc) {
      RestStays(s.l, a);
    }
    if !Owes(a) {
      QuietStep(s.l, a);
    }
    if Over(s.pc) {
      StopStable(s.l, a);
    }
  }

  lemma ProducerKept(s: Loop, t: Thread, a: Action)
    requires LoopInv(s) && Enabled(s, Producer(t, a))
    ensures Apply(s, Producer(t, a)).Done? && LoopInv(Apply(s, Producer(t, a)).value)
  {
    hide Inv;
    hide Shutdown.Work;
    hide G.GateOk;
    hide L.Enabled;
    hide L.Apply;
    hide DecisionOk;
    hide AdmissionOk;
    if !s.ring {
      RingThere(s.l, a);
    }
    var owing := if Owes(a) then s.owing + {t} else s.owing;
    DataStepKept(s, a, owing);
  }

  lemma PassKept(s: Loop, a: Action)
    requires LoopInv(s) && Enabled(s, PassStep(a))
    ensures Apply(s, PassStep(a)).Done? && LoopInv(Apply(s, PassStep(a)).value)
  {
    hide Inv;
    hide Shutdown.Work;
    hide L.Enabled;
    hide L.Apply;
    hide AdmissionOk;
    Kept(s.l, a);
    KnownSubs(s.l);
    AdmissionStays(s.l, a, s.pc, Told(s), Told(s));
  }

  /** The end of the first section, and of the loop that wakes those who wait for room. */
  lemma WakingKept(s: Loop, e: Event)
    requires LoopInv(s) && Enabled(s, e) && (e.EndStaging? || e.EndWaking?)
    ensures Apply(s, e).Done? && LoopInv(Apply(s, e).value)
  {
    hide Inv;
    hide Shutdown.Work;
    hide OwnedFirst;
    KnownSubs(s.l);
  }

  lemma VisitKept(s: Loop, sub: SubId)
    requires LoopInv(s) && Enabled(s, Visit(sub))
    ensures Apply(s, Visit(sub)).Done? && LoopInv(Apply(s, Visit(sub)).value)
  {
    hide Inv;
    hide Shutdown.Work;
    hide L.Enabled;
    if HasSub(s.l, sub) && !s.l.subs[sub].iteratorFinished {
      CanWake(s.l, sub);
      Kept(s.l, DoWakeAdmission(sub));
      hide SetSub;
      VisitWakes(s.l, sub, s.pc.todo);
    } else {
      assert !Stranded(s.l, sub);
    }
  }

  lemma CanWake(l: Ledger, sub: SubId)
    requires HasSub(l, sub)
    ensures L.Enabled(l, DoWakeAdmission(sub))
  {
  }

  lemma VisitWakes(l: Ledger, sub: SubId, todo: set<SubId>)
    requires HasSub(l, sub)
    ensures var m := SetSub(l, sub, WaitAdmission(l.subs[sub], false));
            NoneStranded(l, todo) ==> NoneStranded(m, todo - {sub})
  {
    var m := SetSub(l, sub, WaitAdmission(l.subs[sub], false));
    if NoneStranded(l, todo) {
      forall x | x in m.subs && x !in todo - {sub}
        ensures !Stranded(m, x)
      {
        if x != sub {
          assert !Stranded(l, x);
        }
      }
    }
  }

  // ----- Steps of the gate ------------------------------------------------------------------------------

  lemma NotifyKept(s: Loop, t: Thread)
    requires LoopInv(s)
    ensures Apply(s, Notify(t)).Done? && LoopInv(Apply(s, Notify(t)).value)
  {
    hide Inv;
    hide Shutdown.Work;
    hide Idle;
    hide Unstaged;
    hide AtRest;
  }

  lemma ChooseKept(s: Loop, backlog: bool)
    requires LoopInv(s) && s.pc == Dispatching && AtRest(s.l)
    ensures LoopInv(ChooseStep(s, backlog))
  {
    hide Inv;
    hide Shutdown.Work;
    StopExactly(s.l, backlog);
  }

  lemma ParkStepKept(s: Loop, e: Event)
    requires LoopInv(s) && Enabled(s, e) && (e.TryPark? || e.Return? || e.MarkRunning?)
    ensures Apply(s, e).Done? && LoopInv(Apply(s, e).value)
  {
    hide Inv;
    hide Shutdown.Work;
    hide Idle;
    hide Unstaged;
    hide AtRest;
    hide NoneStranded;
    hide OwnedFirst;
  }

  lemma EndStepKept(s: Loop, e: Event)
    requires LoopInv(s) && Enabled(s, e) && (e.Start? || e.DropRing? || e.MarkTerminal? || e.Retire?)
    ensures Apply(s, e).Done? && LoopInv(Apply(s, e).value)
  {
    hide Inv;
    hide Shutdown.Work;
    hide Idle;
    hide Unstaged;
    hide AtRest;
    hide NoneStranded;
    hide OwnedFirst;
  }

  /** No step of the loop, of a producer or of the kernel aborts, and each keeps the invariant. */
  lemma LoopKept(s: Loop, e: Event)
    requires LoopInv(s) && Enabled(s, e)
    ensures Apply(s, e).Done? && LoopInv(Apply(s, e).value)
  {
    match e
    case Producer(t, a) =>
      hide LoopInv;
      ProducerKept(s, t, a);
    case Notify(t) =>
      hide LoopInv;
      NotifyKept(s, t);
    case Kernel(c) =>
      hide LoopInv;
      DataStepKept(s, DoPost(c), s.owing);
    case PassStep(a) =>
      hide LoopInv;
      PassKept(s, a);
    case EndStaging =>
      hide LoopInv;
      WakingKept(s, e);
    case Visit(sub) =>
      hide LoopInv;
      VisitKept(s, sub);
    case EndWaking =>
      hide LoopInv;
      WakingKept(s, e);
    case Choose(backlog) =>
      hide LoopInv;
      ChooseKept(s, backlog);
    case _ =>
      hide LoopInv;
      if e.TryPark? || e.Return? || e.MarkRunning? {
        ParkStepKept(s, e);
      } else {
        EndStepKept(s, e);
      }
  }

  ghost predicate LoopReaches(s: Loop, run: seq<Event>, s': Loop)
    decreases |run|
  {
    if run == [] then s' == s
    else Enabled(s, run[0]) && Apply(s, run[0]).Done? && LoopReaches(Apply(s, run[0]).value, run[1..], s')
  }

  lemma {:induction false} LoopRuns(s: Loop, run: seq<Event>, s': Loop)
    requires LoopInv(s) && LoopReaches(s, run, s')
    ensures LoopInv(s')
    decreases |run|
  {
    hide LoopInv;
    hide Enabled;
    hide Apply;
    if run != [] {
      LoopKept(s, run[0]);
      LoopRuns(Apply(s, run[0]).value, run[1..], s');
    }
  }

  // ----- What the invariant says ------------------------------------------------------------------------

  /** A parked driver that nothing is about to wake has nothing to do, and never are there two pause tokens. */
  ghost predicate Awake(s: Loop) {
    && s.native.pause <= 1
    && (s.pc == Parking(Pause) && s.native.pause == 0 ==> Idle(s.l) || s.owing != {})
    && (s.pc == Parking(Wait) && s.gate.phase == G.DeadlineWait ==> !Unstaged(s.l) || s.owing != {})
    && (Asleep(s) ==> s.owing != {} || forall sub | sub in s.l.subs :: !AwaitsAdmission(s.l, sub))
  }

  /** The driver is parked and no wake is on its way. */
  predicate Asleep(s: Loop) {
    (s.pc == Parking(Pause) && s.native.pause == 0) || (s.pc == Parking(Wait) && s.gate.phase == G.DeadlineWait)
  }

  predicate AwaitsAdmission(l: Ledger, sub: SubId) {
    HasSub(l, sub) && l.cursors[sub].active && l.subs[sub].waiters.admission
  }

  /** Whoever waits with his iterator finished has an entry in the SQ that the kernel has not taken. */
  lemma FinishedStaged(l: Ledger, sub: SubId)
    requires Inv(l) && AwaitsAdmission(l, sub) && l.subs[sub].iteratorFinished
    ensures l.subs[sub].counts.accepted < l.subs[sub].counts.originals && l.ring.staged != []
  {
    hide Shape.Core;
    hide OpsOk;
    hide FlagsOk;
    hide A.AccountOk;
    assert A.SubBooked(l.raw, l.ring.staged, sub, l.subs[sub], l.cursors[sub], l.cfg.limit);
  }

  lemma InvAdmission(s: Loop)
    requires LoopInv(s) && Asleep(s) && s.owing == {}
    ensures forall sub | sub in s.l.subs :: !AwaitsAdmission(s.l, sub)
  {
    hide Inv;
    hide Shutdown.Work;
    forall sub | sub in s.l.subs
      ensures !AwaitsAdmission(s.l, sub)
    {
      assert !Stranded(s.l, sub);
      if AwaitsAdmission(s.l, sub) {
        FinishedStaged(s.l, sub);
        assert false;
      }
    }
  }

  lemma InvAwake(s: Loop)
    requires LoopInv(s)
    ensures Awake(s)
  {
    hide Inv;
    hide Shutdown.Work;
    hide Idle;
    hide Unstaged;
    hide AdmissionOk;
    hide AwaitsAdmission;
    if Asleep(s) && s.owing == {} {
      InvAdmission(s);
    }
  }

  /**
    No lost wakeup, over every run from the start: a driver that sits in `pause` with no token on
    the way has nothing to do and no shutdown to attend to, and nobody waits for it to admit his
    entries, or some thread that gave it work has yet to call `notify`.  Never are there two pause tokens.
   */
  lemma NoLostWakeup(cfg: Config, run: seq<Event>, s: Loop)
    requires LoopReaches(Init(cfg), run, s)
    ensures Awake(s)
  {
    hide LoopInv;
    hide Awake;
    hide LoopReaches;
    InitLoopInv(cfg);
    LoopRuns(Init(cfg), run, s);
    InvAwake(s);
  }

  /** The `notify` of a thread that owes one wakes a driver that sits in `pause` without a token. */
  lemma NotifyWakes(s: Loop, t: Thread)
    requires LoopInv(s) && s.pc == Parking(Pause) && s.native.pause == 0
    ensures Apply(s, Notify(t)).Done? && Enabled(Apply(s, Notify(t)).value, Return(true))
  {
    hide Inv;
    hide Shutdown.Work;
  }

  /** A `notify` that finds the driver between its decision and the gate makes it look again. */
  lemma NotifyStopsParking(s: Loop, t: Thread)
    requires LoopInv(s) && s.pc.Decided?
    ensures Apply(s, Notify(t)).Done?
    ensures Enabled(Apply(s, Notify(t)).value, TryPark)
    ensures Apply(Apply(s, Notify(t)).value, TryPark).value.pc == InPass
  {
    hide Inv;
    hide Shutdown.Work;
  }

  predicate Stopped(s: Loop) {
    s.gate.phase in {G.Terminal, G.Destroyed}
  }

  lemma StoppedStep(s: Loop, e: Event)
    requires LoopInv(s) && Stopped(s) && Enabled(s, e)
    ensures Apply(s, e).Done? && Stopped(Apply(s, e).value) && Apply(s, e).value.native == s.native
  {
    hide Inv;
    hide Shutdown.Work;
    hide L.Enabled;
    hide L.Apply;
    if e.Producer? {
      ProducerKept(s, e.t, e.a);
    } else if e.Kernel? {
      DataStepKept(s, DoPost(e.c), s.owing);
    }
  }

  /**
    Once the loop is terminal no native submit is ever made again, the ring is gone, and nothing is
    left in it, in the queues or in the maps; neither admission nor the owned queue is open.
   */
  lemma {:induction false} TerminalIsFinal(s: Loop, run: seq<Event>, s': Loop)
    requires LoopInv(s) && Stopped(s) && LoopReaches(s, run, s')
    ensures Stopped(s') && s'.native == s.native && !s'.ring
    ensures Quiescent(s'.l) && !s'.l.flags.accepting && !s'.l.flags.ownedAdmission
    decreases |run|
  {
    if run == [] {
      TerminalQuiet(s);
    } else {
      hide LoopInv;
      hide Stopped;
      hide Enabled;
      hide Apply;
      hide Quiescent;
      StoppedStep(s, run[0]);
      LoopKept(s, run[0]);
      TerminalIsFinal(Apply(s, run[0]).value, run[1..], s');
    }
  }

  lemma TerminalQuiet(s: Loop)
    requires LoopInv(s) && Stopped(s)
    ensures !s.ring && Quiescent(s.l) && !s.l.flags.accepting && !s.l.flags.ownedAdmission
  {
    hide Inv;
    hide Shutdown.Work;
    hide Quiescent;
    assert Over(s.pc);
    Guards(s.l);
    StoppedQuiet(s.l);
  }

  /** From the start, no step of the loop, of a producer, of the kernel or of the completion callback aborts. */
  lemma LoopNeverAborts(cfg: Config, run: seq<Event>, s: Loop, e: Event)
    requires LoopReaches(Init(cfg), run, s) && Enabled(s, e)
    ensures Apply(s, e).Done?
  {
    hide LoopInv;
    hide LoopReaches;
    hide Enabled;
    hide Apply;
    InitLoopInv(cfg);
    LoopRuns(Init(cfg), run, s);
    LoopKept(s, e);
  }

  /** From the start: what follows the terminal phase makes no native call and finds everything empty and closed. */
  lemma TerminalAlways(cfg: Config, run: seq<Event>, s: Loop, more: seq<Event>, s': Loop)
    requires LoopReaches(Init(cfg), run, s) && Stopped(s) && LoopReaches(s, more, s')
    ensures Stopped(s') && s'.native == s.native && !s'.ring
    ensures Quiescent(s'.l) && !s'.l.flags.accepting && !s'.l.flags.ownedAdmission
  {
    hide LoopInv;
    hide LoopReaches;
    hide Quiescent;
    hide Stopped;
    InitLoopInv(cfg);
    LoopRuns(Init(cfg), run, s);
    TerminalIsFinal(s, more, s');
  }
}
