/** Shutdown of the io_uring driver: it makes progress, it ends, and its end is final. */
module Shutdown {
  import opened Prelude
  import opened Ledger
  import opened Shape
  import opened Operations
  import opened Safety
  import opened Traces
  import A = Accounts
  import C = CoreSteps
  import R = RingSteps
  import S = Slots
  import P = Pairs
  import Sub = Submission

  datatype Decision = Stop | Yield | Wait | Pause

  /** `active` in `decide`. */
  predicate Active(l: Ledger) {
    l.raw.contexts != map[] || l.ring.staged != [] || l.raw.cancelQueue != []
    || l.owned.contexts != map[] || l.owned.cancels != map[] || l.ops.pending != []
    || l.owned.cancelQueue != [] || l.ops.queue != []
  }

  /** Work that a pass can take up at once. */
  predicate Unstaged(l: Ledger) {
    l.ring.staged != [] || l.raw.cancelQueue != [] || l.ops.pending != []
    || l.owned.cancelQueue != [] || l.ops.queue != []
  }

  /** The pass has put everything it took out back into the data. */
  predicate AtRest(l: Ledger) {
    l.ops.staging.None? && l.ops.held == [] && l.ring.batch == []
  }

  function Decide(l: Ledger, backlog: bool): Decision {
    if l.flags.shutdown && !Active(l) then Stop
    else if backlog || Unstaged(l) then Yield
    else if Active(l) then Wait
    else Pause
  }

  // ----- The measure --------------------------------------------------------------------------------

  function RawNeeds(rc: map<Addr, RawContext>): set<Addr> {
    set p | p in rc && NeedsCancel(rc, p)
  }

  function OwnedNeeds(oc: map<Addr, OwnedContext>): set<Addr> {
    set p | p in oc && NeedsOwnedCancel(oc, p)
  }

  /** Cancellations still to be requested, weighted by all they will go through. */
  function CancelWork(l: Ledger): nat {
    7 * (|RawNeeds(l.raw.contexts)| + |OwnedNeeds(l.owned.contexts)|)
    + 6 * (|l.raw.cancelQueue| + |l.owned.cancelQueue|)
  }

  function RingWork(r: Ring): nat {
    5 * |r.staged| + 4 * |r.inflight| + 3 * |r.cq| + 2 * |r.batch|
  }

  function OpWork(o: Ops): nat {
    2 * (|o.queue| + |o.pending|) + |o.held|
  }

  function Work(l: Ledger): nat {
    CancelWork(l) + RingWork(l.ring) + OpWork(l.ops)
  }

  /** The steps of the driver, the kernel and the shutting-down thread that bring shutdown forward. */
  predicate Progress(a: Action) {
    match a
    case DoQueueCancel(_) => true
    case DoCancelOwned(_, t, _) => t.Some?
    case DoStageCancel(_) => true
    case DoStageOwnedCancel(_) => true
    case DoPopOwned => true
    case DoAccept => true
    case DoReap(n) => n > 0
    case DoDispatch => true
    case DoFinishHeld => true
    case DoPost(_) => true
    case _ => false
  }

  /** How many CQEs with the MORE flag a step adds. */
  function Mores(a: Action): nat {
    if a.DoPost? && a.c.more then 1 else 0
  }

  // ----- How the sets of the measure move -------------------------------------------------------------

  lemma RawNeedsGone(rc: map<Addr, RawContext>, p: Addr)
    ensures RawNeeds(rc - {p}) == RawNeeds(rc) - {p}
  {
    assert forall q | q in rc && q != p :: NeedsCancel(rc - {p}, q) == NeedsCancel(rc, q);
  }

  lemma RawNeedsPut(rc: map<Addr, RawContext>, p: Addr, x: RawContext)
    ensures NeedsCancel(rc[p := x], p) ==> RawNeeds(rc[p := x]) == RawNeeds(rc) + {p}
    ensures !NeedsCancel(rc[p := x], p) ==> RawNeeds(rc[p := x]) == RawNeeds(rc) - {p}
  {
    assert forall q | q in rc && q != p :: NeedsCancel(rc[p := x], q) == NeedsCancel(rc, q);
  }

  lemma OwnedNeedsGone(oc: map<Addr, OwnedContext>, p: Addr)
    ensures OwnedNeeds(oc - {p}) == OwnedNeeds(oc) - {p}
  {
    assert forall q | q in oc && q != p :: NeedsOwnedCancel(oc - {p}, q) == NeedsOwnedCancel(oc, q);
  }

  lemma OwnedNeedsPut(oc: map<Addr, OwnedContext>, p: Addr, x: OwnedContext)
    ensures NeedsOwnedCancel(oc[p := x], p) ==> OwnedNeeds(oc[p := x]) == OwnedNeeds(oc) + {p}
    ensures !NeedsOwnedCancel(oc[p := x], p) ==> OwnedNeeds(oc[p := x]) == OwnedNeeds(oc) - {p}
  {
    assert forall q | q in oc && q != p :: NeedsOwnedCancel(oc[p := x], q) == NeedsOwnedCancel(oc, q);
  }

  lemma SmallerSet(a: set<Addr>, p: Addr)
    ensures |a - {p}| <= |a|
    ensures p in a ==> |a - {p}| + 1 == |a|
    ensures p in a ==> a + {p} == a
  {
    if p in a {
      assert a == (a - {p}) + {p};
    } else {
      assert a - {p} == a;
    }
  }

  // ----- Strict progress ------------------------------------------------------------------------------

  lemma QueueCancelWork(l: Ledger, p: Addr)
    requires CanQueueCancel(l, p)
    ensures Work(QueueCancel(l, p)) < Work(l)
  {
    RawNeedsPut(l.raw.contexts, p, l.raw.contexts[p].(cancelQueued := true));
    SmallerSet(RawNeeds(l.raw.contexts), p);
  }

  lemma CancelOwnedWork(l: Ledger, op: Op, p: Addr)
    requires OwnedTarget(l.owned.contexts, op, p)
    ensures Work(CancelOwned(l, Some(p))) < Work(l)
  {
    OwnedNeedsPut(l.owned.contexts, p, l.owned.contexts[p].(cancelQueued := true));
    SmallerSet(OwnedNeeds(l.owned.contexts), p);
  }

  lemma StageCancelWork(l: Ledger, p: Addr)
    requires CanStageCancel(l, p)
    ensures Work(StageCancel(l, p)) < Work(l)
  {
    var m := StageCancel(l, p);
    RawNeedsPut(l.raw.contexts, p, m.raw.contexts[p]);
    SmallerSet(RawNeeds(l.raw.contexts), p);
  }

  lemma CoreParts(l: Ledger)
    requires Core(l)
    ensures Ringed(l.ring, Boxes(l)) && Shaped(l)
  {
    hide Ringed;
    hide P.Inv;
    hide Shaped;
  }

  lemma AcceptRingWork(r: Ring)
    requires r.sq != [] && r.staged != [] && |AcceptFront(r).inflight| == |r.inflight| + 1
    ensures RingWork(AcceptFront(r)) + 1 == RingWork(r)
  {
  }

  lemma SubmitNeeds(rc: map<Addr, RawContext>, oc: map<Addr, OwnedContext>, p: Addr)
    ensures p in rc && rc[p].phase == S.Staged ==> |RawNeeds(rc[p := rc[p].(phase := S.Submitted)])| <= |RawNeeds(rc)|
    ensures p in oc && oc[p].phase == S.Staged ==> |OwnedNeeds(oc[p := oc[p].(phase := S.Submitted)])| <= |OwnedNeeds(oc)|
  {
    if p in rc {
      RawNeedsPut(rc, p, rc[p].(phase := S.Submitted));
      SmallerSet(RawNeeds(rc), p);
    }
    if p in oc {
      OwnedNeedsPut(oc, p, oc[p].(phase := S.Submitted));
      SmallerSet(OwnedNeeds(oc), p);
    }
  }

  lemma AcceptCancelWork(l: Ledger)
    requires l.ring.sq != [] && Accept(l).Done?
    ensures CancelWork(Accept(l).value) <= CancelWork(l)
    ensures Accept(l).value.ring == AcceptFront(l.ring) && Accept(l).value.ops == l.ops
  {
    hide RawNeeds;
    hide OwnedNeeds;
    SubmitNeeds(l.raw.contexts, l.owned.contexts, l.ring.staged[0].p);
  }

  lemma AcceptWork(l: Ledger)
    requires Core(l) && l.ring.sq != [] && Accept(l).Done?
    ensures Work(Accept(l).value) < Work(l)
  {
    hide Core;
    hide Ringed;
    hide Accept;
    CoreParts(l);
    R.FrontFree(l.ring, Boxes(l));
    AcceptRingWork(l.ring);
    AcceptCancelWork(l);
  }

  lemma PostWork(l: Ledger, c: S.Cqe)
    requires CanPost(l, c)
    ensures if c.more then Work(Post(l, c)) == Work(l) + 3 else Work(Post(l, c)) < Work(l)
  {
    var m := Post(l, c);
    if !c.more {
      assert m.ring.inflight.Keys == l.ring.inflight.Keys - {c.userData};
      SmallerSet(l.ring.inflight.Keys, c.userData);
      assert |m.ring.inflight.Keys| == |m.ring.inflight| && |l.ring.inflight.Keys| == |l.ring.inflight|;
    }
  }

  lemma DispatchRawWork(l: Ledger)
    requires l.ring.batch != [] && Dispatch(l).Done? && l.ring.batch[0].userData in l.raw.contexts
    ensures Work(Dispatch(l).value) < Work(l)
  {
    var c := l.ring.batch[0];
    var rc := l.raw.contexts;
    var x := rc[c.userData];
    if x.kind == Original {
      if c.more {
      } else if x.cancelQueued && !x.cancelSeen {
        RawNeedsPut(rc, c.userData, x.(phase := S.Terminal));
        SmallerSet(RawNeeds(rc), c.userData);
      } else {
        RawNeedsGone(rc, c.userData);
        SmallerSet(RawNeeds(rc), c.userData);
      }
    } else {
      RetireCancelNeeds(rc, c.userData, x.target.value);
    }
  }

  lemma RetireCancelNeeds(rc: map<Addr, RawContext>, a: Addr, t: Addr)
    requires a in rc && t in rc && a != t
    ensures |RawNeeds(RetireCancel(rc, a, t))| <= |RawNeeds(rc)|
  {
    var rest := rc - {a};
    RawNeedsGone(rc, a);
    SmallerSet(RawNeeds(rc), a);
    SmallerSet(RawNeeds(rest), t);
    if rest[t].phase == S.Terminal {
      RawNeedsGone(rest, t);
    } else {
      RawNeedsPut(rest, t, rest[t].(cancelSeen := true));
      assert NeedsCancel(rest[t := rest[t].(cancelSeen := true)], t) == NeedsCancel(rest, t);
    }
  }

  lemma RetireOwnedNeeds(oc: map<Addr, OwnedContext>, p: Addr)
    requires p in oc
    ensures |OwnedNeeds(RetireOwned(oc, p))| <= |OwnedNeeds(oc)|
  {
    SmallerSet(OwnedNeeds(oc), p);
    if oc[p].cancelQueued && !oc[p].cancelSeen {
      OwnedNeedsPut(oc, p, oc[p].(phase := S.Terminal, handler := None));
    } else {
      OwnedNeedsGone(oc, p);
    }
  }

  lemma SeeOwnedNeeds(oc: map<Addr, OwnedContext>, t: Addr)
    requires t in oc
    ensures |OwnedNeeds(SeeOwned(oc, t))| <= |OwnedNeeds(oc)|
  {
    SmallerSet(OwnedNeeds(oc), t);
    if oc[t].phase == S.Terminal {
      OwnedNeedsGone(oc, t);
    } else {
      OwnedNeedsPut(oc, t, oc[t].(cancelSeen := true));
      assert NeedsOwnedCancel(oc[t := oc[t].(cancelSeen := true)], t) == NeedsOwnedCancel(oc, t);
    }
  }

  lemma DispatchOwnedWork(l: Ledger)
    requires l.ring.batch != [] && Dispatch(l).Done? && l.ring.batch[0].userData !in l.raw.contexts
    ensures Work(Dispatch(l).value) < Work(l)
  {
    var c := l.ring.batch[0];
    if c.userData in l.owned.contexts {
      RetireOwnedNeeds(l.owned.contexts, c.userData);
    } else {
      SeeOwnedNeeds(l.owned.contexts, l.owned.cancels[c.userData].target);
    }
  }

  lemma SameWork(l: Ledger, m: Ledger)
    requires m.raw.contexts == l.raw.contexts && m.owned.contexts == l.owned.contexts && m.raw.cancelQueue == l.raw.cancelQueue
    requires m.owned.cancelQueue == l.owned.cancelQueue && m.ring == l.ring
    requires m.ops.queue == l.ops.queue && m.ops.pending == l.ops.pending && m.ops.held == l.ops.held
    ensures Work(m) == Work(l)
  {
  }

  /** Steps of capability objects and flags: none of them is work for the driver. */
  predicate Aside(a: Action) {
    a.DoRegister? || a.DoRelease? || a.DoPrune? || a.DoAwaitAdmission? || a.DoWakeAdmission? || a.DoCloseCursor? || a.DoRequestDelivery?
    || a.DoPollNext? || a.DoPollNextCancel? || a.DoPollDrained? || a.DoFlag? || a.DoCloseAdmission? || a.DoSwept?
  }

  lemma AsideWork(l: Ledger, a: Action)
    requires Aside(a) && Enabled(l, a)
    ensures Apply(l, a).Done? && Work(Apply(l, a).value) == Work(l)
    ensures Apply(l, a).value.flags.shutdown == l.flags.shutdown
  {
    hide Work;
    SameWork(l, Apply(l, a).value);
  }

  /** Steps that shutdown has closed. */
  predicate Closed(a: Action) {
    a.DoYield? || a.DoFinishIterator? || a.DoStageOriginal? || a.DoEnqueue? || a.DoStageOwned? || a.DoPushBack? || a.DoShutdown?
  }

  lemma ClosedNow(l: Ledger, a: Action)
    requires SweepOk(l.raw.contexts, l.owned.contexts, l.flags, l.ops.staging) && l.flags.shutdown && Closed(a)
    ensures !Enabled(l, a)
  {
  }

  lemma PopWork(l: Ledger)
    requires CanPopOwned(l) && l.flags.shutdown
    ensures Work(PopOwned(l)) < Work(l)
  {
  }

  lemma SmallWork(l: Ledger, a: Action)
    requires a.DoStageOwnedCancel? || a.DoReap? || a.DoFinishHeld?
    requires Enabled(l, a)
    ensures Apply(l, a).Done?
    ensures Work(Apply(l, a).value) + (if Progress(a) then 1 else 0) <= Work(l)
  {
  }

  /** A step takes away work if it is progress, and never adds any beyond the CQE it posts. */
  ghost predicate Shrunk(l: Ledger, a: Action)
    requires Enabled(l, a)
  {
    && Apply(l, a).Done? && Apply(l, a).value.flags.shutdown
    && Work(Apply(l, a).value) + (if Progress(a) then 1 else 0) <= Work(l) + 4 * Mores(a)
  }

  lemma ShrinksRequests(l: Ledger, a: Action)
    requires l.flags.shutdown && Enabled(l, a) && (a.DoQueueCancel? || a.DoCancelOwned?)
    ensures Shrunk(l, a)
  {
    hide Work;
    match a
    case DoQueueCancel(p) => QueueCancelWork(l, p);
    case DoCancelOwned(op, t, dropping) =>
      if t.Some? {
        CancelOwnedWork(l, op, t.value);
      }
      SameWork(CancelOwned(l, t), Apply(l, a).value);
  }

  lemma ShrinksStaging(l: Ledger, a: Action)
    requires l.flags.shutdown && Enabled(l, a) && (a.DoStageCancel? || a.DoPopOwned? || a.DoPost?)
    ensures Shrunk(l, a)
  {
    hide Work;
    match a
    case DoStageCancel(p) => StageCancelWork(l, p);
    case DoPopOwned => PopWork(l);
    case DoPost(c) => PostWork(l, c);
  }

  lemma SameFlagsAfter(l: Ledger)
    ensures l.ring.sq != [] && Accept(l).Done? ==> Accept(l).value.flags == l.flags
    ensures l.ring.batch != [] && Dispatch(l).Done? ==> Dispatch(l).value.flags == l.flags
  {
  }

  lemma ShrinksAccept(l: Ledger)
    requires Core(l) && l.flags.shutdown && Enabled(l, DoAccept)
    ensures Shrunk(l, DoAccept)
  {
    SameFlagsAfter(l);
    hide Work;
    hide Core;
    hide Accept;
    C.AcceptCore(l);
    AcceptWork(l);
  }

  lemma ShrinksDispatch(l: Ledger)
    requires Core(l) && l.flags.shutdown && Enabled(l, DoDispatch)
    ensures Shrunk(l, DoDispatch)
  {
    SameFlagsAfter(l);
    hide Work;
    hide Core;
    hide Dispatch;
    C.DispatchCore(l);
    if l.ring.batch[0].userData in l.raw.contexts {
      DispatchRawWork(l);
    } else {
      DispatchOwnedWork(l);
    }
  }

  /**
    After the shutdown flag is set every step of driver, kernel and sweep takes work away, and no
    other step adds any.  A CQE with the MORE flag is the one exception: it adds its own dispatch.
   */
  lemma Shrinks(l: Ledger, a: Action)
    requires Inv(l) && l.flags.shutdown && Enabled(l, a)
    ensures Shrunk(l, a)
  {
    hide Shrunk;
    hide Enabled;
    hide Core;
    hide A.Booked;
    hide OpsOk;
    if Closed(a) {
      ClosedNow(l, a);
    } else if Aside(a) || a.DoStageOwnedCancel? || a.DoReap? || a.DoFinishHeld? {
      ShrinksSmall(l, a);
    } else {
      ShrinksBig(l, a);
    }
  }

  lemma ShrinksSmall(l: Ledger, a: Action)
    requires l.flags.shutdown && Enabled(l, a)
    requires Aside(a) || a.DoStageOwnedCancel? || a.DoReap? || a.DoFinishHeld?
    ensures Shrunk(l, a)
  {
    hide Work;
    if Aside(a) {
      AsideWork(l, a);
    } else {
      SmallWork(l, a);
    }
  }

  lemma ShrinksBig(l: Ledger, a: Action)
    requires Core(l) && l.flags.shutdown && Enabled(l, a) && !Closed(a) && !Aside(a)
    requires !(a.DoStageOwnedCancel? || a.DoReap? || a.DoFinishHeld?)
    ensures Shrunk(l, a)
  {
    hide Core;
    hide Shrunk;
    hide Enabled;
    match a
    case DoQueueCancel(_) => ShrinksRequests(l, a);
    case DoCancelOwned(_, _, _) => ShrinksRequests(l, a);
    case DoStageCancel(_) => ShrinksStaging(l, a);
    case DoPopOwned => ShrinksStaging(l, a);
    case DoPost(_) => ShrinksStaging(l, a);
    case DoAccept => ShrinksAccept(l);
    case DoDispatch => ShrinksDispatch(l);
  }

  // ----- Every run after shutdown ends -----------------------------------------------------------------

  function Steps(run: seq<Action>): nat {
    if run == [] then 0 else (if Progress(run[0]) then 1 else 0) + Steps(run[1..])
  }

  function MoresIn(run: seq<Action>): nat {
    if run == [] then 0 else Mores(run[0]) + MoresIn(run[1..])
  }

  /**
    Whatever else happens in between, no run after shutdown holds more progress steps than its first
    state has work, plus the multishot CQEs the kernel still posts.
   */
  lemma {:induction false} Bounded(l: Ledger, run: seq<Action>, l': Ledger)
    requires Inv(l) && l.flags.shutdown && Reaches(l, run, l')
    ensures Inv(l') && l'.flags.shutdown
    ensures Steps(run) + Work(l') <= Work(l) + 4 * MoresIn(run)
    decreases |run|
  {
    hide Inv;
    hide Work;
    if run != [] {
      Shrinks(l, run[0]);
      Kept(l, run[0]);
      Bounded(Apply(l, run[0]).value, run[1..], l');
    }
  }

  // ----- No work left means stop -----------------------------------------------------------------------

  lemma NoPhases(r: Ring, boxes: map<Addr, Box>)
    requires Ringed(r, boxes) && r.staged == [] && r.inflight == map[] && r.cq == [] && r.batch == []
    ensures forall a | a in boxes :: boxes[a].phase == S.Terminal
  {
    var s := SlotsOf(r, boxes);
    forall a | a in boxes
      ensures boxes[a].phase == S.Terminal
    {
      assert s.phase[a] == boxes[a].phase;
      assert !S.FinalPosted(s, a);
    }
  }

  /** What holds of every box holds of every context. */
  lemma ContextPhases(rc: map<Addr, RawContext>, oc: map<Addr, OwnedContext>, cc: map<Addr, OwnedCancelContext>)
    requires Disjoint(rc, oc, cc)
    ensures var boxes := BoxMap(rc, oc, cc);
            && (forall a | a in rc :: a in boxes && boxes[a].phase == rc[a].phase)
            && (forall a | a in oc :: a in boxes && boxes[a].phase == oc[a].phase)
            && (forall a | a in cc :: a in boxes && boxes[a].phase == cc[a].phase)
  {
  }

  /** With nothing in the ring and no command queued, no box is left. */
  lemma NothingBoxed(l: Ledger)
    requires Core(l) && RingWork(l.ring) == 0 && l.raw.cancelQueue == [] && l.owned.cancelQueue == []
    ensures l.raw.contexts == map[] && l.owned.contexts == map[] && l.owned.cancels == map[]
  {
    hide Ringed;
    hide P.Inv;
    hide RawShape;
    hide OwnedShape;
    hide Disjoint;
    hide BoxMap;
    assert RingEmptied(l.ring);
    NoPhases(l.ring, Boxes(l));
    ContextPhases(l.raw.contexts, l.owned.contexts, l.owned.cancels);
    NoRaw(l.raw, l.subs.Keys, Boxes(l));
    NoOwned(l.owned, Boxes(l));
  }

  predicate RingEmptied(r: Ring) {
    r.staged == [] && r.inflight == map[] && r.cq == [] && r.batch == []
  }

  lemma NoRaw(raw: RawSide, subs: set<SubId>, boxes: map<Addr, Box>)
    requires RawShape(raw.contexts, subs) && P.Inv(RawPairs(raw)) && raw.cancelQueue == []
    requires forall a | a in raw.contexts :: a in boxes && boxes[a].phase == raw.contexts[a].phase == S.Terminal
    ensures raw.contexts == map[]
  {
    assert RawCancels(raw.contexts) == map[];
    P.NothingRetained(RawPairs(raw));
    assert forall p | p in raw.contexts :: p in RawOriginals(raw.contexts);
  }

  lemma NoOwned(o: OwnedSide, boxes: map<Addr, Box>)
    requires OwnedShape(o.contexts, o.cancels) && P.Inv(OwnedPairs(o)) && o.cancelQueue == []
    requires forall a | a in o.contexts :: a in boxes && boxes[a].phase == o.contexts[a].phase == S.Terminal
    requires forall a | a in o.cancels :: a in boxes && boxes[a].phase == o.cancels[a].phase == S.Terminal
    ensures o.contexts == map[] && o.cancels == map[]
  {
    assert OwnedCancels(o.cancels) == map[];
    P.NothingRetained(OwnedPairs(o));
    assert forall p | p in o.contexts :: p in OwnedOriginals(o.contexts);
  }

  lemma FirstsBoxed(r: Ring, boxes: map<Addr, Box>)
    requires Ringed(r, boxes)
    ensures r.staged != [] ==> r.staged[0].p in boxes
    ensures r.batch + r.cq != [] ==> (r.batch + r.cq)[0].userData in boxes
  {
    var s := SlotsOf(r, boxes);
    assert s.pending != [] ==> s.pending[0].userData in s.phase;
  }

  /** With no box left, nothing is in the SQ, in the kernel or in the CQ. */
  lemma RingEmpty(r: Ring, boxes: map<Addr, Box>)
    requires Ringed(r, boxes) && boxes == map[]
    ensures r == Ring([], [], map[], [], [])
  {
    FirstsBoxed(r, boxes);
    assert r.batch + r.cq == [];
  }

  lemma NoWork(l: Ledger)
    requires Core(l) && l.ops.held == [] && !Active(l)
    ensures Work(l) == 0
  {
    assert Boxes(l) == map[];
    RingEmpty(l.ring, Boxes(l));
    assert RawNeeds(l.raw.contexts) == {} && OwnedNeeds(l.owned.contexts) == {};
  }

  /** `decide` says stop exactly when shutdown was requested and no work is left. */
  lemma StopExactly(l: Ledger, backlog: bool)
    requires Inv(l) && l.ops.held == []
    ensures Decide(l, backlog) == Stop <==> l.flags.shutdown && Work(l) == 0
  {
    hide A.Booked;
    hide OpsOk;
    hide FlagsOk;
    if Work(l) == 0 {
      hide Core;
      NothingBoxed(l);
    } else if !Active(l) {
      NoWork(l);
    }
  }

  /** Nothing waits to be staged or submitted. */
  predicate NothingWaits(l: Ledger) {
    l.ring.sq == [] && l.raw.cancelQueue == [] && l.owned.cancelQueue == [] && l.ops.pending == [] && l.ops.queue == []
  }

  predicate NothingBoxedUp(l: Ledger) {
    l.raw.contexts == map[] && l.owned.contexts == map[] && l.owned.cancels == map[]
  }

  /**
    The decisions one by one.  The driver yields when the CQ may hold more or something waits to be
    staged or submitted, waits for the kernel when neither is so but a box exists, and pauses only when
    nothing exists at all and it need not stop.
   */
  lemma DecideExactly(l: Ledger, backlog: bool)
    requires Inv(l)
    ensures Decide(l, backlog) == Stop <==> l.flags.shutdown && NothingWaits(l) && NothingBoxedUp(l)
    ensures Decide(l, backlog) == Pause <==> !l.flags.shutdown && !backlog && NothingWaits(l) && NothingBoxedUp(l)
    ensures Decide(l, backlog) == Wait <==> !backlog && NothingWaits(l) && !NothingBoxedUp(l)
    ensures Decide(l, backlog) == Yield <==>
              (backlog && (!l.flags.shutdown || !NothingWaits(l) || !NothingBoxedUp(l))) || !NothingWaits(l)
  {
    hide A.Booked;
    hide OpsOk;
    hide FlagsOk;
    assert SqOk(l.ring, Boxes(l));
  }

  // ----- Work left means some progress step can run -----------------------------------------------------

  /** What the ring or an operation waits for can happen. */
  lemma RingMoves(l: Ledger) returns (a: Action)
    requires l.ops.staging.None? && RingWork(l.ring) + OpWork(l.ops) > 0 && |l.ring.sq| == |l.ring.staged|
    ensures Enabled(l, a) && Progress(a) && Mores(a) == 0
  {
    if l.ops.held != [] {
      a := DoFinishHeld;
    } else if l.ring.batch != [] {
      a := DoDispatch;
    } else if l.ring.cq != [] {
      a := DoReap(|l.ring.cq|);
    } else if l.ring.staged != [] {
      a := DoAccept;
    } else if l.ops.queue != [] || l.ops.pending != [] {
      a := DoPopOwned;
    } else {
      var p :| p in l.ring.inflight;
      a := DoPost(S.Cqe(p, 0, false));
    }
  }

  /** A cancellation still to be requested, or one that waits for an SQ slot, can go on. */
  lemma CancelMoves(l: Ledger) returns (a: Action)
    requires l.ops.staging.None? && CancelWork(l) > 0 && l.ring.sq == [] && l.cfg.entries > 0
    requires RawShape(l.raw.contexts, l.subs.Keys)
    ensures Enabled(l, a) && Progress(a) && Mores(a) == 0
  {
    if l.raw.cancelQueue != [] {
      var p := SomeFresh(l);
      a := DoStageCancel(p);
    } else if l.owned.cancelQueue != [] {
      var p := SomeFresh(l);
      a := DoStageOwnedCancel(p);
    } else if RawNeeds(l.raw.contexts) != {} {
      var p :| p in RawNeeds(l.raw.contexts);
      a := DoQueueCancel(p);
    } else {
      var p :| p in OwnedNeeds(l.owned.contexts);
      a := DoCancelOwned(l.owned.contexts[p].control, Some(p), false);
    }
  }

  /** Shutdown never gets stuck: as long as work is left, a step that takes some of it away can run. */
  lemma ProgressPossible(l: Ledger) returns (a: Action)
    requires Inv(l) && l.flags.shutdown && Work(l) > 0 && l.cfg.entries > 0
    ensures Enabled(l, a) && Progress(a) && Mores(a) == 0
    ensures Apply(l, a).Done? && Inv(Apply(l, a).value) && Work(Apply(l, a).value) < Work(l)
  {
    Guards(l);
    hide Inv;
    hide Enabled;
    if RingWork(l.ring) + OpWork(l.ops) > 0 {
      hide Work;
      a := RingMoves(l);
    } else {
      a := CancelMoves(l);
    }
    hide Work;
    Kept(l, a);
    Shrinks(l, a);
  }

  lemma Guards(l: Ledger)
    requires Inv(l) && l.flags.shutdown
    ensures l.ops.staging.None? && |l.ring.sq| == |l.ring.staged| && RawShape(l.raw.contexts, l.subs.Keys)
    ensures !l.flags.accepting && !l.flags.ownedAdmission
  {
    hide A.Booked;
    hide OpsOk;
    hide P.Inv;
  }

  /** A run of `Work(l)` steps or fewer ends in a state that `decide` turns into stop. */
  lemma {:induction false} CanStop(l: Ledger) returns (run: seq<Action>, l': Ledger)
    requires Inv(l) && l.flags.shutdown && l.cfg.entries > 0
    ensures Reaches(l, run, l') && |run| <= Work(l)
    ensures Inv(l') && l'.flags.shutdown && Work(l') == 0
    decreases Work(l)
  {
    hide Inv;
    hide Work;
    hide Enabled;
    if Work(l) == 0 {
      run, l' := [], l;
    } else {
      var a := ProgressPossible(l);
      Shrinks(l, a);
      SameConfig(l, a);
      var m := Apply(l, a).value;
      var rest;
      rest, l' := CanStop(m);
      run := [a] + rest;
      assert run[1..] == rest;
    }
  }

  lemma ConfigBySub(l: Ledger, a: Action)
    requires Enabled(l, a) && Apply(l, a).Done? && TouchesSubs(a)
    ensures Apply(l, a).value.cfg == l.cfg
  {
    hide RetireOriginal;
    hide RetireCancel;
    hide RetireOwned;
    hide SeeOwned;
    hide AcceptFront;
    hide AcceptSubs;
    hide Drop;
    hide Sub.OnOriginal;
    hide Sub.OnCancel;
  }

  lemma ConfigByRest(l: Ledger, a: Action)
    requires Enabled(l, a) && Apply(l, a).Done? && !TouchesSubs(a)
    ensures Apply(l, a).value.cfg == l.cfg
  {
  }

  lemma SameConfig(l: Ledger, a: Action)
    requires Enabled(l, a) && Apply(l, a).Done?
    ensures Apply(l, a).value.cfg == l.cfg
  {
    hide Enabled;
    hide Apply;
    if TouchesSubs(a) {
      ConfigBySub(l, a);
    } else {
      ConfigByRest(l, a);
    }
  }

  // ----- Stop is final ----------------------------------------------------------------------------------

  lemma NothingInFlight(l: Ledger, a: Action)
    requires Work(l) == 0 && Enabled(l, a)
    ensures Mores(a) == 0
  {
  }

  /** Once there is no work left after shutdown, no step whatsoever makes any. */
  lemma StopStable(l: Ledger, a: Action)
    requires Inv(l) && l.flags.shutdown && Work(l) == 0 && Enabled(l, a)
    ensures Apply(l, a).Done? && Inv(Apply(l, a).value)
    ensures Apply(l, a).value.flags.shutdown && Work(Apply(l, a).value) == 0 && !Progress(a)
  {
    hide Inv;
    hide Work;
    hide Enabled;
    hide Apply;
    hide Progress;
    hide Mores;
    NothingInFlight(l, a);
    Kept(l, a);
    Shrinks(l, a);
  }

  /** What a finished shutdown looks like, field by field. */
  ghost predicate Quiescent(l: Ledger) {
    && l.raw == RawSide(map[], [])
    && l.owned == OwnedSide(map[], map[], [])
    && l.ring == Ring([], [], map[], [], [])
    && l.ops.queue == [] && l.ops.pending == [] && l.ops.staging.None? && l.ops.held == []
  }

  lemma StoppedQuiet(l: Ledger)
    requires Inv(l) && l.flags.shutdown && Work(l) == 0
    ensures Quiescent(l)
  {
    Guards(l);
    hide A.Booked;
    hide OpsOk;
    hide FlagsOk;
    hide Core;
    NothingBoxed(l);
  }

  lemma QuietOps(l: Ledger)
    requires OpsOk(l) && Quiescent(l)
    ensures forall op | op in l.ops.accepted :: FinishesOf(l.ops.finished, op) == 1
  {
    forall op | op in l.ops.accepted
      ensures FinishesOf(l.ops.finished, op) == 1
    {
      assert Holders(l.owned.contexts, op) == {};
      assert Places(l.ops, l.owned.contexts, op) == 1;
    }
  }

  lemma QuietSubs(l: Ledger)
    requires A.Booked(l) && Quiescent(l)
    ensures forall sub | sub in l.subs :: Sub.Drained(l.subs[sub].counts)
  {
    forall sub | sub in l.subs
      ensures Sub.Drained(l.subs[sub].counts)
    {
      assert A.SubBooked(l.raw, l.ring.staged, sub, l.subs[sub], l.cursors[sub], l.cfg.limit);
      assert forall c :: A.Members(l.raw.contexts, c) == {};
    }
  }

  /**
    When `decide` says stop the ring can be dropped: neither the SQ, the kernel nor the CQ holds an
    entry, every owned operation ever accepted has ended exactly once, every submission is drained,
    and this stays so along every run that may still follow.
   */
  lemma {:induction false} StopIsFinal(l: Ledger, run: seq<Action>, l': Ledger)
    requires Inv(l) && l.flags.shutdown && Work(l) == 0 && Reaches(l, run, l')
    ensures Inv(l') && l'.flags.shutdown && Work(l') == 0 && Steps(run) == 0
    ensures Quiescent(l')
    ensures forall op | op in l'.ops.accepted :: FinishesOf(l'.ops.finished, op) == 1
    ensures forall sub | sub in l'.subs :: Sub.Drained(l'.subs[sub].counts)
    decreases |run|
  {
    if run == [] {
      StoppedQuiet(l);
      hide Quiescent;
      QuietOps(l);
      QuietSubs(l);
    } else {
      hide Inv;
      hide Work;
      hide Quiescent;
      StopStable(l, run[0]);
      StopIsFinal(Apply(l, run[0]).value, run[1..], l');
    }
  }

  // ----- After the sweep ----------------------------------------------------------------------------------

  /** A cancellation of `p` waits in a queue, is boxed for the ring, or its CQE was dispatched already. */
  ghost predicate BeingCancelled(s: P.Pairs, p: Addr) {
    p in s.originals && s.originals[p].queued && (s.originals[p].seen || P.Covered(s, p))
  }

  /** When the shutting-down thread has worked through its lists, everything alive is being cancelled. */
  lemma Swept(l: Ledger)
    requires Inv(l) && l.flags.shutdown && l.flags.sweepSubs == {} && l.flags.sweepOps == {}
    ensures forall p | p in l.raw.contexts && l.raw.contexts[p].kind == Original && l.raw.contexts[p].phase != S.Terminal ::
              BeingCancelled(RawPairs(l.raw), p)
    ensures forall p | p in l.owned.contexts && l.owned.contexts[p].phase != S.Terminal ::
              BeingCancelled(OwnedPairs(l.owned), p)
  {
    hide A.Booked;
    hide OpsOk;
    hide Shaped;
    hide Ringed;
    SweptRaw(l.raw, l.flags.sweepSubs);
    SweptOwned(l.owned, l.flags.sweepOps);
  }

  lemma SweptRaw(raw: RawSide, sweep: set<SubId>)
    requires P.Inv(RawPairs(raw)) && sweep == {}
    requires forall p | NeedsCancel(raw.contexts, p) :: raw.contexts[p].sub in sweep
    ensures forall p | p in raw.contexts && raw.contexts[p].kind == Original && raw.contexts[p].phase != S.Terminal ::
              BeingCancelled(RawPairs(raw), p)
  {
    var s := RawPairs(raw);
    forall p | p in raw.contexts && raw.contexts[p].kind == Original && raw.contexts[p].phase != S.Terminal
      ensures BeingCancelled(s, p)
    {
      assert !NeedsCancel(raw.contexts, p);
      assert s.originals[p].queued;
      assert !s.originals[p].seen ==> P.Awaiting(s, p);
    }
  }

  lemma SweptOwned(o: OwnedSide, sweep: set<Op>)
    requires P.Inv(OwnedPairs(o)) && sweep == {}
    requires forall p | NeedsOwnedCancel(o.contexts, p) :: o.contexts[p].control in sweep
    ensures forall p | p in o.contexts && o.contexts[p].phase != S.Terminal :: BeingCancelled(OwnedPairs(o), p)
  {
    var s := OwnedPairs(o);
    forall p | p in o.contexts && o.contexts[p].phase != S.Terminal
      ensures BeingCancelled(s, p)
    {
      assert !NeedsOwnedCancel(o.contexts, p);
      assert s.originals[p].queued;
      assert !s.originals[p].seen ==> P.Awaiting(s, p);
    }
  }
}
