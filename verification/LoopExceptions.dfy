/** Whom the run loop of the io_uring driver leaves behind when it stops. */
module LoopExceptions {
  import opened Prelude
  import opened Ledger
  import L = Ledger
  import opened Traces
  import opened Safety
  import opened Shutdown
  import opened DriverLoop
  import G = ParkGate
  import Sub = Submission

  // ----- Runs of the loop -----------------------------------------------------------------------------------

  lemma {:induction false} LoopSnoc(s: Loop, run: seq<Event>, m: Loop, e: Event)
    requires LoopReaches(s, run, m) && DriverLoop.Enabled(m, e) && DriverLoop.Apply(m, e).Done?
    ensures LoopReaches(s, run + [e], DriverLoop.Apply(m, e).value)
    decreases |run|
  {
    hide DriverLoop.Enabled;
    hide DriverLoop.Apply;
    if run == [] {
      assert run + [e] == [e];
      assert LoopReaches(DriverLoop.Apply(m, e).value, [e][1..], DriverLoop.Apply(m, e).value);
    } else {
      assert (run + [e])[1..] == run[1..] + [e];
      LoopSnoc(DriverLoop.Apply(s, run[0]).value, run[1..], m, e);
    }
  }

  ghost predicate LoopLeads(s: Loop, m: Loop) {
    exists run :: LoopReaches(s, run, m)
  }

  lemma LoopLeadsOn(s: Loop, m: Loop, e: Event)
    requires LoopLeads(s, m) && DriverLoop.Enabled(m, e) && DriverLoop.Apply(m, e).Done?
    ensures LoopLeads(s, DriverLoop.Apply(m, e).value)
  {
    hide DriverLoop.Enabled;
    hide DriverLoop.Apply;
    hide LoopReaches;
    var run :| LoopReaches(s, run, m);
    LoopSnoc(s, run, m, e);
  }

  // ----- After the stop -------------------------------------------------------------------------------------

  /** When the driver has stopped, whoever still waits for admission had not finished his iterator. */
  lemma StoppedUnfinished(cfg: Config, run: seq<Event>, s: Loop, sub: SubId)
    requires LoopReaches(DriverLoop.Init(cfg), run, s) && Over(s.pc) && AwaitsAdmission(s.l, sub)
    ensures !s.l.subs[sub].iteratorFinished
  {
    hide LoopReaches;
    hide LoopInv;
    InitLoopInv(cfg);
    LoopRuns(DriverLoop.Init(cfg), run, s);
    OverQuiet(s);
    if s.l.subs[sub].iteratorFinished {
      FinishedStaged(s.l, sub);
      assert false;
    }
  }

  lemma OverQuiet(s: Loop)
    requires LoopInv(s) && Over(s.pc)
    ensures Inv(s.l) && s.l.ring.sq == [] && s.l.ring.staged == [] && !s.l.flags.accepting
  {
    hide Inv;
    hide Shutdown.Work;
    Guards(s.l);
    StoppedQuiet(s.l);
  }

  lemma WaiterStays(l: Ledger, a: Action, sub: SubId)
    requires L.Enabled(l, a) && L.Apply(l, a).Done? && AwaitsAdmission(l, sub)
    requires !l.flags.accepting && l.ring.sq == [] && a != DoCloseCursor(sub)
    requires !a.DoDispatch? && !a.DoWakeAdmission?
    ensures AwaitsAdmission(L.Apply(l, a).value, sub)
  {
    if !TouchesSubs(a) {
      hide L.Enabled;
      hide L.Apply;
      SubsUntouched(l, a);
    }
  }

  lemma StillWaits(s: Loop, e: Event, sub: SubId)
    requires LoopInv(s) && Over(s.pc) && AwaitsAdmission(s.l, sub) && DriverLoop.Enabled(s, e)
    requires !(e.Producer? && e.a == DoCloseCursor(sub))
    ensures DriverLoop.Apply(s, e).Done?
    ensures Over(DriverLoop.Apply(s, e).value.pc) && AwaitsAdmission(DriverLoop.Apply(s, e).value.l, sub)
  {
    hide LoopInv;
    hide Inv;
    hide AwaitsAdmission;
    OverQuiet(s);
    LoopKept(s, e);
    if e.Producer? || e.Kernel? {
      DataWaits(s, e, sub);
    } else {
      hide L.Enabled;
      hide L.Apply;
    }
  }

  lemma DataWaits(s: Loop, e: Event, sub: SubId)
    requires DriverLoop.Enabled(s, e) && DriverLoop.Apply(s, e).Done? && (e.Producer? || e.Kernel?)
    requires AwaitsAdmission(s.l, sub) && s.l.ring.sq == [] && !s.l.flags.accepting
    requires !(e.Producer? && e.a == DoCloseCursor(sub))
    ensures DriverLoop.Apply(s, e).value.pc == s.pc && AwaitsAdmission(DriverLoop.Apply(s, e).value.l, sub)
  {
    hide AwaitsAdmission;
    hide L.Enabled;
    hide L.Apply;
    WaiterStays(s.l, if e.Producer? then e.a else DoPost(e.c), sub);
  }

  /**
    Who still waits for admission when the driver has stopped is never woken: he waits along every
    continuation in which he does not give up his future himself.
   */
  lemma {:induction false} WaitsForever(s: Loop, more: seq<Event>, m: Loop, sub: SubId)
    requires LoopInv(s) && Over(s.pc) && AwaitsAdmission(s.l, sub) && LoopReaches(s, more, m)
    requires forall i | 0 <= i < |more| && more[i].Producer? :: more[i].a != DoCloseCursor(sub)
    ensures AwaitsAdmission(m.l, sub)
    decreases |more|
  {
    hide LoopInv;
    hide DriverLoop.Enabled;
    hide DriverLoop.Apply;
    hide AwaitsAdmission;
    if more != [] {
      StillWaits(s, more[0], sub);
      LoopKept(s, more[0]);
      assert forall i | 0 <= i < |more[1..]| :: more[1..][i] == more[i + 1];
      WaitsForever(DriverLoop.Apply(s, more[0]).value, more[1..], m, sub);
    }
  }

  lemma WaitsForeverAlways(cfg: Config, run: seq<Event>, s: Loop, more: seq<Event>, m: Loop, sub: SubId)
    requires LoopReaches(DriverLoop.Init(cfg), run, s) && Over(s.pc) && AwaitsAdmission(s.l, sub) && LoopReaches(s, more, m)
    requires forall i | 0 <= i < |more| && more[i].Producer? :: more[i].a != DoCloseCursor(sub)
    ensures AwaitsAdmission(m.l, sub)
  {
    hide LoopInv;
    hide LoopReaches;
    hide AwaitsAdmission;
    InitLoopInv(cfg);
    LoopRuns(DriverLoop.Init(cfg), run, s);
    WaitsForever(s, more, m, sub);
  }

  // ----- Which waiters the last pass still sees ---------------------------------------------------------------

  /** A look of the driver at whoever waits for room is still to come before it can stop. */
  predicate Ahead(s: Loop, sub: SubId) {
    || s.pc in {NotStarted, InPass, Resumed} || s.pc.Decided? || s.pc.Parking?
    || (s.pc.Waking? && sub in s.pc.todo)
    || (s.pc == Dispatching && OwnedFirst(s.l))
  }

  predicate InTime(s: Loop, sub: SubId) {
    Stranded(s.l, sub) ==> Ahead(s, sub)
  }

  /** The action on the data that the event makes, if it makes one at the will of a thread or of the kernel. */
  function ActionOf(e: Event): Option<Action> {
    match e
    case Producer(_, a) => Some(a)
    case PassStep(a) => Some(a)
    case Kernel(c) => Some(DoPost(c))
    case _ => None
  }

  lemma ActionOnData(s: Loop, e: Event)
    requires DriverLoop.Enabled(s, e) && DriverLoop.Apply(s, e).Done? && ActionOf(e).Some?
    ensures var a := ActionOf(e).value;
            && L.Enabled(s.l, a) && L.Apply(s.l, a).Done?
            && DriverLoop.Apply(s, e).value.l == L.Apply(s.l, a).value
            && DriverLoop.Apply(s, e).value.pc == s.pc
            && !a.DoWakeAdmission? && (s.pc == Dispatching ==> !TakesOwned(a))
  {
    hide L.Enabled;
    hide L.Apply;
  }

  lemma TimelyData(s: Loop, e: Event, sub: SubId)
    requires InTime(s, sub) && DriverLoop.Enabled(s, e) && DriverLoop.Apply(s, e).Done?
    requires ActionOf(e).Some? && ActionOf(e).value != DoAwaitAdmission(sub)
    ensures InTime(DriverLoop.Apply(s, e).value, sub)
  {
    hide DriverLoop.Enabled;
    hide DriverLoop.Apply;
    hide L.Enabled;
    hide L.Apply;
    hide Stranded;
    hide OwnedFirst;
    ActionOnData(s, e);
    var a := ActionOf(e).value;
    var m := DriverLoop.Apply(s, e).value;
    if Stranded(m.l, sub) {
      StrandedBeforeOf(s.l, a, sub);
      if s.pc == Dispatching && OwnedFirst(s.l) {
        OwnedStays(s.l, a);
      }
    }
  }

  lemma AwaitOther(l: Ledger, x: SubId, sub: SubId)
    requires L.Enabled(l, DoAwaitAdmission(x)) && x != sub && Stranded(L.Apply(l, DoAwaitAdmission(x)).value, sub)
    ensures Stranded(l, sub)
  {
  }

  /** Only its own poll makes a submission wait for admission. */
  lemma StrandedBeforeOf(l: Ledger, a: Action, sub: SubId)
    requires L.Enabled(l, a) && L.Apply(l, a).Done? && a != DoAwaitAdmission(sub)
    requires Stranded(L.Apply(l, a).value, sub)
    ensures Stranded(l, sub)
  {
    hide L.Enabled;
    hide L.Apply;
    hide Stranded;
    if a.DoAwaitAdmission? {
      AwaitOther(l, a.sub, sub);
    } else {
      StrandedBefore(l, a, sub);
    }
  }

  lemma VisitSees(s: Loop, sub: SubId)
    requires DriverLoop.Enabled(s, Visit(sub)) && DriverLoop.Apply(s, Visit(sub)).Done?
    ensures !Stranded(DriverLoop.Apply(s, Visit(sub)).value.l, sub)
  {
  }

  lemma VisitPasses(s: Loop, x: SubId, sub: SubId)
    requires DriverLoop.Enabled(s, Visit(x)) && DriverLoop.Apply(s, Visit(x)).Done? && x != sub
    ensures var m := DriverLoop.Apply(s, Visit(x)).value;
            && m.pc == Waking(s.pc.todo - {x}) && (Stranded(m.l, sub) <==> Stranded(s.l, sub))
  {
  }

  lemma TimelyVisit(s: Loop, x: SubId, sub: SubId)
    requires InTime(s, sub) && DriverLoop.Enabled(s, Visit(x)) && DriverLoop.Apply(s, Visit(x)).Done?
    ensures InTime(DriverLoop.Apply(s, Visit(x)).value, sub)
  {
    hide DriverLoop.Enabled;
    hide DriverLoop.Apply;
    hide Stranded;
    VisitOfTodo(s, x);
    if x == sub {
      VisitSees(s, sub);
    } else {
      VisitPasses(s, x, sub);
    }
  }

  lemma VisitOfTodo(s: Loop, sub: SubId)
    requires DriverLoop.Enabled(s, Visit(sub))
    ensures s.pc.Waking? && sub in s.pc.todo
  {
  }

  /** A pass looks at every registered submission. */
  lemma TimelySection(s: Loop, sub: SubId)
    requires DriverLoop.Enabled(s, EndStaging)
    requires forall x | x in s.l.cursors && s.l.cursors[x].active :: x in s.l.flags.registry
    ensures DriverLoop.Apply(s, EndStaging).Done? && InTime(DriverLoop.Apply(s, EndStaging).value, sub)
  {
    hide OwnedFirst;
  }

  /** A driver with owned work in line does not stop. */
  lemma TimelyChoice(s: Loop, backlog: bool, sub: SubId)
    requires InTime(s, sub) && s.pc == Dispatching
    ensures InTime(ChooseStep(s, backlog), sub)
  {
    hide Stranded;
  }

  lemma TimelyTurn(s: Loop, e: Event, sub: SubId)
    requires InTime(s, sub) && DriverLoop.Enabled(s, e) && DriverLoop.Apply(s, e).Done?
    requires ActionOf(e).None? && !e.Visit? && !e.EndStaging? && !e.Choose?
    ensures InTime(DriverLoop.Apply(s, e).value, sub)
  {
    hide Stranded;
    hide OwnedFirst;
  }

  lemma ChoiceMade(s: Loop, backlog: bool)
    requires DriverLoop.Enabled(s, Choose(backlog))
    ensures s.pc == Dispatching && DriverLoop.Apply(s, Choose(backlog)) == Done(ChooseStep(s, backlog))
  {
  }

  lemma InvKnown(s: Loop)
    requires LoopInv(s)
    ensures Inv(s.l)
  {
  }

  lemma Timely(s: Loop, e: Event, sub: SubId)
    requires LoopInv(s) && InTime(s, sub) && DriverLoop.Enabled(s, e)
    requires ActionOf(e) != Some(DoAwaitAdmission(sub))
    ensures DriverLoop.Apply(s, e).Done? && InTime(DriverLoop.Apply(s, e).value, sub)
  {
    hide LoopInv;
    hide InTime;
    hide DriverLoop.Enabled;
    hide DriverLoop.Apply;
    hide Inv;
    hide ChooseStep;
    LoopKept(s, e);
    if ActionOf(e).Some? {
      TimelyData(s, e, sub);
    } else if e.Visit? {
      TimelyVisit(s, e.sub, sub);
    } else if e.EndStaging? {
      InvKnown(s);
      KnownSubs(s.l);
      TimelySection(s, sub);
    } else if e.Choose? {
      ChoiceMade(s, e.backlog);
      TimelyChoice(s, e.backlog, sub);
    } else {
      TimelyTurn(s, e, sub);
    }
  }

  /** Along the run nobody registers the admission waiter of `sub`. */
  predicate NoPoll(run: seq<Event>, sub: SubId) {
    forall i | 0 <= i < |run| :: ActionOf(run[i]) != Some(DoAwaitAdmission(sub))
  }

  lemma {:induction false} TimelyRuns(s: Loop, more: seq<Event>, m: Loop, sub: SubId)
    requires LoopInv(s) && InTime(s, sub) && LoopReaches(s, more, m) && NoPoll(more, sub)
    ensures LoopInv(m) && InTime(m, sub)
    decreases |more|
  {
    hide LoopInv;
    hide InTime;
    hide DriverLoop.Enabled;
    hide DriverLoop.Apply;
    hide ActionOf;
    if more != [] {
      Timely(s, more[0], sub);
      LoopKept(s, more[0]);
      assert forall i | 0 <= i < |more[1..]| :: more[1..][i] == more[i + 1];
      TimelyRuns(DriverLoop.Apply(s, more[0]).value, more[1..], m, sub);
    }
  }

  lemma NobodyLeft(s: Loop, sub: SubId)
    requires LoopInv(s) && InTime(s, sub) && Over(s.pc)
    ensures !AwaitsAdmission(s.l, sub)
  {
    hide LoopInv;
    hide Inv;
    OverQuiet(s);
    if AwaitsAdmission(s.l, sub) {
      if s.l.subs[sub].iteratorFinished {
        FinishedStaged(s.l, sub);
        assert false;
      }
    }
  }

  /**
    Whoever registers in time is not left behind: from any reachable state in which `sub` does not wait
    for room, or a look of the driver at it is still to come, it waits for nothing when the driver is
    over, along every continuation in which its future does not register again.
   */
  lemma InTimeAlways(cfg: Config, run: seq<Event>, s: Loop, more: seq<Event>, m: Loop, sub: SubId)
    requires LoopReaches(DriverLoop.Init(cfg), run, s) && InTime(s, sub)
    requires LoopReaches(s, more, m) && Over(m.pc) && NoPoll(more, sub)
    ensures !AwaitsAdmission(m.l, sub)
  {
    hide LoopInv;
    hide LoopReaches;
    hide InTime;
    hide NoPoll;
    InitLoopInv(cfg);
    LoopRuns(DriverLoop.Init(cfg), run, s);
    TimelyRuns(s, more, m, sub);
    NobodyLeft(m, sub);
  }

  // ----- Which waiters it does not see ------------------------------------------------------------------------

  /** The kernel takes an original of `sub`, or its CQE is dispatched; both wake the waiter. */
  predicate OwnEntry(l: Ledger, a: Action, sub: SubId) {
    || (a.DoAccept? && l.ring.staged != [] && l.ring.staged[0].Raw? && OriginalAt(l.raw.contexts, l.ring.staged[0].p, sub))
    || (a.DoDispatch? && l.ring.batch != [] && OriginalAt(l.raw.contexts, l.ring.batch[0].userData, sub))
  }

  predicate OriginalAt(rc: map<Addr, RawContext>, p: Addr, sub: SubId) {
    p in rc && rc[p].kind == Original && rc[p].sub == sub
  }

  /** What else could end the wait: a new pass, an entry of its own, or the future itself. */
  predicate Rescues(s: Loop, e: Event, sub: SubId) {
    || e.TryPark? || e.MarkRunning?
    || (ActionOf(e).Some?
        && (ActionOf(e).value in {DoCloseCursor(sub), DoFinishIterator(sub)} || OwnEntry(s.l, ActionOf(e).value, sub)))
  }

  ghost predicate Unrescued(s: Loop, run: seq<Event>, sub: SubId)
    decreases |run|
  {
    run != [] ==>
      && !Rescues(s, run[0], sub)
      && (DriverLoop.Enabled(s, run[0]) && DriverLoop.Apply(s, run[0]).Done? ==>
            Unrescued(DriverLoop.Apply(s, run[0]).value, run[1..], sub))
  }

  /** It waits for room, and the driver has passed the place where it would look. */
  predicate Passed(s: Loop, sub: SubId) {
    && Stranded(s.l, sub) && s.pc != NotStarted && s.pc != InPass && (s.pc.Waking? ==> sub !in s.pc.todo)
  }

  lemma WaitsOnAccept(l: Ledger, sub: SubId)
    requires L.Enabled(l, DoAccept) && L.Apply(l, DoAccept).Done? && Stranded(l, sub) && !OwnEntry(l, DoAccept, sub)
    ensures Stranded(L.Apply(l, DoAccept).value, sub)
  {
    hide AcceptFront;
  }

  lemma WaitsOnDispatch(l: Ledger, sub: SubId)
    requires L.Enabled(l, DoDispatch) && L.Apply(l, DoDispatch).Done? && Stranded(l, sub) && !OwnEntry(l, DoDispatch, sub)
    ensures Stranded(L.Apply(l, DoDispatch).value, sub)
  {
    hide RetireOriginal;
    hide RetireCancel;
    hide RetireOwned;
    hide SeeOwned;
    hide Drop;
    hide Sub.BufferOriginal;
    hide Sub.CountOriginal;
    hide Sub.BufferCancel;
    hide Sub.CountCancel;
    hide Sub.Drained;
  }

  lemma WaitsOnSub(l: Ledger, a: Action, sub: SubId)
    requires L.Enabled(l, a) && L.Apply(l, a).Done? && Stranded(l, sub) && TouchesSubs(a)
    requires !a.DoAccept? && !a.DoDispatch? && !a.DoWakeAdmission? && a !in {DoCloseCursor(sub), DoFinishIterator(sub)}
    ensures Stranded(L.Apply(l, a).value, sub)
  {
  }

  lemma WaitsOn(l: Ledger, a: Action, sub: SubId)
    requires L.Enabled(l, a) && L.Apply(l, a).Done? && Stranded(l, sub) && !a.DoWakeAdmission?
    requires a !in {DoCloseCursor(sub), DoFinishIterator(sub)} && !OwnEntry(l, a, sub)
    ensures Stranded(L.Apply(l, a).value, sub)
  {
    hide L.Enabled;
    hide L.Apply;
    if a.DoAccept? {
      hide Stranded;
      WaitsOnAccept(l, sub);
    } else if a.DoDispatch? {
      hide Stranded;
      WaitsOnDispatch(l, sub);
    } else if TouchesSubs(a) {
      hide Stranded;
      WaitsOnSub(l, a, sub);
    } else {
      SubsUntouched(l, a);
    }
  }

  lemma PassedTurn(s: Loop, e: Event, sub: SubId)
    requires Passed(s, sub) && DriverLoop.Enabled(s, e) && DriverLoop.Apply(s, e).Done?
    requires ActionOf(e).None? && !e.Visit? && !e.TryPark? && !e.MarkRunning?
    ensures Passed(DriverLoop.Apply(s, e).value, sub)
  {
    hide Decide;
  }

  lemma PassedStays(s: Loop, e: Event, sub: SubId)
    requires Passed(s, sub) && DriverLoop.Enabled(s, e) && DriverLoop.Apply(s, e).Done? && !Rescues(s, e, sub)
    ensures Passed(DriverLoop.Apply(s, e).value, sub)
  {
    hide DriverLoop.Enabled;
    hide DriverLoop.Apply;
    hide L.Enabled;
    hide L.Apply;
    hide Stranded;
    hide OwnEntry;
    if ActionOf(e).Some? {
      ActionOnData(s, e);
      WaitsOn(s.l, ActionOf(e).value, sub);
    } else if e.Visit? {
      VisitOfTodo(s, e.sub);
      VisitPasses(s, e.sub, sub);
    } else {
      PassedTurn(s, e, sub);
    }
  }

  lemma {:induction false} PassedRuns(s: Loop, more: seq<Event>, m: Loop, sub: SubId)
    requires Passed(s, sub) && LoopReaches(s, more, m) && Unrescued(s, more, sub)
    ensures Passed(m, sub)
    decreases |more|
  {
    hide Passed;
    hide Rescues;
    hide DriverLoop.Enabled;
    hide DriverLoop.Apply;
    if more != [] {
      PassedStays(s, more[0], sub);
      PassedRuns(DriverLoop.Apply(s, more[0]).value, more[1..], m, sub);
    }
  }

  /**
    Whoever registers too late is left behind: from any state in which `sub` waits for room and no look
    of the driver at it is to come, it still waits when the driver is over, along every continuation in
    which no new pass begins, none of its own entries is taken or completed, and its future neither
    finishes its iterator nor is given up.
   */
  lemma TooLate(s: Loop, more: seq<Event>, m: Loop, sub: SubId)
    requires Stranded(s.l, sub) && !Ahead(s, sub)
    requires LoopReaches(s, more, m) && Unrescued(s, more, sub)
    ensures AwaitsAdmission(m.l, sub)
  {
    hide LoopReaches;
    hide Unrescued;
    PassedRuns(s, more, m, sub);
  }

  /**
    Exactly who is left behind.  Take a reachable state in which `sub` waits for room, and a continuation
    to the end of the driver in which no new pass begins and nothing else happens to `sub`: it still
    waits at the end if and only if the driver had already passed it at the beginning.
   */
  lemma StrandedExactly(cfg: Config, run: seq<Event>, s: Loop, more: seq<Event>, m: Loop, sub: SubId)
    requires LoopReaches(DriverLoop.Init(cfg), run, s) && Stranded(s.l, sub)
    requires LoopReaches(s, more, m) && Over(m.pc) && NoPoll(more, sub) && Unrescued(s, more, sub)
    ensures AwaitsAdmission(m.l, sub) <==> !Ahead(s, sub)
  {
    hide LoopReaches;
    hide Unrescued;
    hide NoPoll;
    hide Ahead;
    hide AwaitsAdmission;
    if Ahead(s, sub) {
      InTimeAlways(cfg, run, s, more, m, sub);
    } else {
      TooLate(s, more, m, sub);
    }
  }

  // ----- A future left behind ---------------------------------------------------------------------------------

  const WORK := Op(0, 0)

  /** Submission 0 with one entry, not yet yielded. */
  function One(cfg: Config, flags: Flags, ops: Ops, delivery: Sub.Delivery, waiting: bool): Ledger {
    var st := Sub.New();
    L.Init(cfg).(
      flags := flags, ops := ops, cursors := map[0 := Cursor([0], 0, None, true)],
      subs := map[0 := st.(buffers := st.buffers.(delivery := delivery),
                           waiters := st.waiters.(admission := waiting))])
  }

  function At(l: Ledger, pc: Pc, owing: set<Thread>): Loop {
    Loop(l, G.Gate(G.Running, false, true), pc, true, G.Native(0, 0), owing)
  }

  function OpenFlags(): Flags {
    Flags(true, false, true, {0}, {0}, {}, {})
  }

  function ShutFlags(): Flags {
    Flags(false, true, false, {0}, {0}, {0}, {})
  }

  /** One owned operation in the queue, with its future gone; then taken out; then over. */
  function Queued(): Ops {
    Ops([WORK], [], None, [], [], {WORK}, {WORK}, {})
  }

  function Taken(): Ops {
    Ops([], [], None, [Finish(WORK, L.Cancelled)], [], {WORK}, {WORK}, {})
  }

  function Ended(): Ops {
    Ops([], [], None, [], [Finish(WORK, L.Cancelled)], {WORK}, {WORK}, {})
  }

  function Empty(): Ops {
    Ops([], [], None, [], [], {}, {}, {})
  }

  lemma Starts(cfg: Config)
    ensures LoopLeads(DriverLoop.Init(cfg), At(One(cfg, OpenFlags(), Empty(), Sub.Open, false), InPass, {}))
  {
    var s := DriverLoop.Init(cfg);
    assert LoopReaches(s, [], s);
    hide LoopLeads;
    LoopLeadsOn(s, s, Producer(0, DoRegister(0, [0])));
    var a := DriverLoop.Apply(s, Producer(0, DoRegister(0, [0]))).value;
    assert a == s.(l := One(cfg, OpenFlags(), Empty(), Sub.Open, false));
    LoopLeadsOn(s, a, Start);
  }

  /**
    The first poll of the submitting future, between its critical sections: it has left the SQ to an
    owned operation, whose future was then dropped, and it has not registered its waiter yet.
   */
  lemma PollBegins(cfg: Config)
    ensures LoopLeads(DriverLoop.Init(cfg), At(One(cfg, OpenFlags(), Queued(), Sub.Open, false), InPass, {1}))
  {
    Starts(cfg);
    hide LoopLeads;
    var s, a := DriverLoop.Init(cfg), At(One(cfg, OpenFlags(), Empty(), Sub.Open, false), InPass, {});
    LoopLeadsOn(s, a, Producer(1, DoEnqueue(WORK)));
    var b := DriverLoop.Apply(a, Producer(1, DoEnqueue(WORK))).value;
    LoopLeadsOn(s, b, Producer(1, DoFlag(WORK)));
    assert DriverLoop.Apply(b, Producer(1, DoFlag(WORK))).value
        == At(One(cfg, OpenFlags(), Queued(), Sub.Open, false), InPass, {1});
  }

  /** The pass takes the operation out, finds nobody waiting for admission, and goes on to dispatch. */
  lemma PassGoesBy(cfg: Config)
    ensures LoopLeads(DriverLoop.Init(cfg), At(One(cfg, OpenFlags(), Taken(), Sub.Open, false), Dispatching, {1}))
  {
    PollBegins(cfg);
    hide LoopLeads;
    var s, a := DriverLoop.Init(cfg), At(One(cfg, OpenFlags(), Queued(), Sub.Open, false), InPass, {1});
    LoopLeadsOn(s, a, PassStep(DoPopOwned));
    var l := One(cfg, OpenFlags(), Taken(), Sub.Open, false);
    assert DriverLoop.Apply(a, PassStep(DoPopOwned)).value == At(l, InPass, {1});
    LoopLeadsOn(s, At(l, InPass, {1}), EndStaging);
    LoopLeadsOn(s, At(l, Waking({0}), {1}), Visit(0));
    assert SetSub(l, 0, WaitAdmission(l.subs[0], false)) == l;
    assert {0} - {0} == {};
    LoopLeadsOn(s, At(l, Waking({}), {1}), EndWaking);
  }

  /** Only now does the poll register its waiter; then the runtime shuts down. */
  lemma WaitsTooLate(cfg: Config)
    ensures LoopLeads(DriverLoop.Init(cfg), At(One(cfg, ShutFlags(), Ended(), Sub.Detached, true), Dispatching, {0, 1, 2}))
  {
    PassGoesBy(cfg);
    hide LoopLeads;
    var s, a := DriverLoop.Init(cfg), At(One(cfg, OpenFlags(), Taken(), Sub.Open, false), Dispatching, {1});
    LoopLeadsOn(s, a, Producer(0, DoAwaitAdmission(0)));
    var b := At(One(cfg, OpenFlags(), Taken(), Sub.Open, true), Dispatching, {0, 1});
    assert DriverLoop.Apply(a, Producer(0, DoAwaitAdmission(0))).value == b;
    LoopLeadsOn(s, b, PassStep(DoFinishHeld));
    var c := At(One(cfg, OpenFlags(), Ended(), Sub.Open, true), Dispatching, {0, 1});
    assert DriverLoop.Apply(b, PassStep(DoFinishHeld)).value == c;
    ShutsDown(cfg);
  }

  lemma ShutsDown(cfg: Config)
    requires LoopLeads(DriverLoop.Init(cfg), At(One(cfg, OpenFlags(), Ended(), Sub.Open, true), Dispatching, {0, 1}))
    ensures LoopLeads(DriverLoop.Init(cfg), At(One(cfg, ShutFlags(), Ended(), Sub.Detached, true), Dispatching, {0, 1, 2}))
  {
    hide LoopLeads;
    var s, a := DriverLoop.Init(cfg), At(One(cfg, OpenFlags(), Ended(), Sub.Open, true), Dispatching, {0, 1});
    LoopLeadsOn(s, a, Producer(2, DoCloseAdmission));
    var b := DriverLoop.Apply(a, Producer(2, DoCloseAdmission)).value;
    LoopLeadsOn(s, b, Producer(2, DoShutdown));
    var c := At(One(cfg, ShutFlags(), Ended(), Sub.Open, true), Dispatching, {0, 1, 2});
    assert LiveControls(map[]) == {};
    assert DriverLoop.Apply(b, Producer(2, DoShutdown)).value == c;
    LoopLeadsOn(s, c, Producer(2, DoRequestDelivery(0, Sub.Detached)));
    assert DriverLoop.Apply(c, Producer(2, DoRequestDelivery(0, Sub.Detached))).value
        == At(One(cfg, ShutFlags(), Ended(), Sub.Detached, true), Dispatching, {0, 1, 2});
  }

  /**
    A future polled outside the runtime can be left waiting for admission by shutdown, whatever the
    configuration: the driver has stopped, everybody has notified it, and the future still waits.
   */
  lemma AdmissionStranded(cfg: Config) returns (s: Loop)
    ensures LoopLeads(DriverLoop.Init(cfg), s) && s.pc == Finished && s.owing == {} && AwaitsAdmission(s.l, 0)
  {
    WaitsTooLate(cfg);
    hide LoopLeads;
    var init, l := DriverLoop.Init(cfg), One(cfg, ShutFlags(), Ended(), Sub.Detached, true);
    LoopLeadsOn(init, At(l, Dispatching, {0, 1, 2}), Choose(false));
    LoopLeadsOn(init, At(l, Stopping, {0, 1, 2}), DropRing);
    var dropped := At(l, RingDropped, {0, 1, 2}).(ring := false);
    LoopLeadsOn(init, dropped, MarkTerminal);
    s := AllNotify(init, DriverLoop.Apply(dropped, MarkTerminal).value);
  }

  lemma AllNotify(init: Loop, s: Loop) returns (m: Loop)
    requires LoopLeads(init, s) && s.gate.phase == G.Terminal && s.owing == {0, 1, 2}
    ensures LoopLeads(init, m) && m.l == s.l && m.pc == s.pc && m.owing == {}
  {
    hide LoopLeads;
    LoopLeadsOn(init, s, Notify(0));
    var a := DriverLoop.Apply(s, Notify(0)).value;
    LoopLeadsOn(init, a, Notify(1));
    var b := DriverLoop.Apply(a, Notify(1)).value;
    LoopLeadsOn(init, b, Notify(2));
    m := DriverLoop.Apply(b, Notify(2)).value;
  }
}
