/**
  The invariant of the io_uring driver over every run.

  `Kept` shows that no step out of a state with the invariant aborts and that the invariant holds
  again afterwards; `Runs` extends this to every finite run, whatever the order of the steps.
 */
module Safety {
  import opened Prelude
  import opened Ledger
  import opened Shape
  import opened Accounts
  import opened Operations
  import opened Traces
  import C = CoreSteps
  import B = BookSteps
  import S = Slots
  import P = Pairs
  import Sub = Submission

  /** Every submission that something refers to can still be found by shutdown. */
  ghost predicate RegisteredOk(raw: RawSide, flags: Flags, cursors: map<SubId, Cursor>) {
    && (forall p | p in raw.contexts :: raw.contexts[p].sub in flags.registry)
    && (forall i | 0 <= i < |raw.cancelQueue| :: raw.cancelQueue[i].sub in flags.registry)
    && flags.live <= flags.registry
    && (forall sub | sub in cursors && cursors[sub].active :: sub in flags.live)
  }

  /**
    Shutdown closes admission before it looks at anything, and every box that may still complete
    either has its cancellation queued or is on the list the shutting-down thread works through.
   */
  ghost predicate SweepOk(rc: map<Addr, RawContext>, oc: map<Addr, OwnedContext>, flags: Flags, staging: Option<Op>) {
    flags.shutdown ==>
      && !flags.accepting && !flags.ownedAdmission && staging.None?
      && (forall p | NeedsCancel(rc, p) :: rc[p].sub in flags.sweepSubs)
      && (forall p | NeedsOwnedCancel(oc, p) :: oc[p].control in flags.sweepOps)
  }

  predicate NeedsOwnedCancel(oc: map<Addr, OwnedContext>, p: Addr) {
    p in oc && oc[p].phase != S.Terminal && !oc[p].cancelQueued
  }

  ghost predicate OpsOk(l: Ledger) {
    && PlacesOk(l.ops, l.owned.contexts)
    && DroppedOk(l.ops, l.owned.contexts)
    && OutcomesOk(l.ops, l.flags.shutdown, l.cfg.supported)
  }

  ghost predicate FlagsOk(l: Ledger) {
    && RegisteredOk(l.raw, l.flags, l.cursors)
    && SweepOk(l.raw.contexts, l.owned.contexts, l.flags, l.ops.staging)
  }

  ghost predicate Inv(l: Ledger) {
    Core(l) && Booked(l) && OpsOk(l) && FlagsOk(l)
  }

  lemma InitInv(cfg: Config)
    ensures Inv(Init(cfg))
  {
    hide Core;
    hide OpsOk;
    InitCore(cfg);
    InitOps(cfg);
  }

  lemma InitOps(cfg: Config)
    ensures OpsOk(Init(cfg))
  {
    assert forall op :: Holders(Init(cfg).owned.contexts, op) == {};
  }

  lemma InitCore(cfg: Config)
    ensures Core(Init(cfg))
  {
    hide SlotsOf;
    hide BoxMap;
    hide RawOriginals;
    hide RawCancels;
    hide OwnedOriginals;
    hide OwnedCancels;
    var l := Init(cfg);
    NoSlots();
    S.InitInv();
    NoRawOriginals();
    NoRawCancels();
    NoOwnedOriginals();
    NoOwnedCancels();
    P.InitInv();
  }

  lemma NoSlots()
    ensures SlotsOf(Ring([], [], map[], [], []), BoxMap(map[], map[], map[])) == S.Init()
  {
    hide BoxMap;
  }

  lemma NoRawOriginals()
    ensures RawOriginals(map[]) == map[]
  {
  }

  lemma NoRawCancels()
    ensures RawCancels(map[]) == map[]
  {
  }

  lemma NoOwnedOriginals()
    ensures OwnedOriginals(map[]) == map[]
  {
  }

  lemma NoOwnedCancels()
    ensures OwnedCancels(map[]) == map[]
  {
  }

  // ----- Steps that leave the ring and the boxes alone -------------------------------------------------

  lemma SameCore(l: Ledger, m: Ledger)
    requires Core(l) && m.raw == l.raw && m.owned == l.owned && m.ring == l.ring && l.subs.Keys <= m.subs.Keys
    ensures Core(m)
  {
    hide Ringed;
    hide P.Inv;
  }

  lemma KeptRegister(l: Ledger, sub: SubId, entries: seq<nat>)
    requires Inv(l) && Enabled(l, DoRegister(sub, entries))
    ensures Inv(Register(l, sub, entries))
  {
    hide OpsOk;
    hide FlagsOk;
    SameCore(l, Register(l, sub, entries));
    B.RegisterBooked(l, sub, entries);
    RegisterFlags(l, sub, entries);
    SameOps(l, Register(l, sub, entries));
  }

  lemma SameOps(l: Ledger, m: Ledger)
    requires OpsOk(l) && m.ops == l.ops && m.owned.contexts == l.owned.contexts && m.cfg == l.cfg
    requires l.flags.shutdown ==> m.flags.shutdown
    ensures OpsOk(m)
  {
    hide PlacesOk;
    hide DroppedOk;
  }

  lemma RegisterFlags(l: Ledger, sub: SubId, entries: seq<nat>)
    requires FlagsOk(l)
    ensures FlagsOk(Register(l, sub, entries))
  {
  }

  lemma SameFlags(l: Ledger, m: Ledger)
    requires FlagsOk(l) && m.flags == l.flags && m.raw == l.raw && m.owned.contexts == l.owned.contexts
    requires m.cursors == l.cursors && m.ops.staging == l.ops.staging
    ensures FlagsOk(m)
  {
  }

  lemma KeptSetSub(l: Ledger, sub: SubId, st: Sub.Submission)
    requires Inv(l) && HasSub(l, sub) && B.Quiet(l.subs[sub], st) && Sub.Ok(st, l.cfg.limit)
    ensures Inv(SetSub(l, sub, st))
  {
    hide OpsOk;
    hide FlagsOk;
    SameCore(l, SetSub(l, sub, st));
    B.SetSubBooked(l, sub, st);
    SameOps(l, SetSub(l, sub, st));
    SameFlags(l, SetSub(l, sub, st));
  }

  lemma SubOk(l: Ledger, sub: SubId)
    requires Booked(l) && sub in l.subs
    ensures Sub.Ok(l.subs[sub], l.cfg.limit)
  {
  }

  lemma WaitOk(st: Sub.Submission, waiting: bool, limit: nat)
    requires Sub.Ok(st, limit)
    requires waiting ==> !(st.iteratorFinished && st.counts.accepted == st.counts.originals)
    ensures Sub.Ok(WaitAdmission(st, waiting), limit)
  {
    hide Sub.Subsequence;
  }

  lemma KeptSubSteps(l: Ledger, a: Action)
    requires Inv(l) && Enabled(l, a)
    requires a.DoAwaitAdmission? || a.DoWakeAdmission? || a.DoRequestDelivery? || a.DoPollNext? || a.DoPollNextCancel? || a.DoPollDrained?
    ensures Apply(l, a).Done? && Inv(Apply(l, a).value)
  {
    hide Core;
    hide Booked;
    hide OpsOk;
    hide FlagsOk;
    hide Sub.Ok;
    SubOk(l, a.sub);
    var st := l.subs[a.sub];
    match a {
      case DoAwaitAdmission(sub) =>
        WaitOk(st, true, l.cfg.limit);
        KeptSetSub(l, sub, WaitAdmission(st, true));
      case DoWakeAdmission(sub) =>
        WaitOk(st, false, l.cfg.limit);
        KeptSetSub(l, sub, WaitAdmission(st, false));
      case DoRequestDelivery(sub, d) =>
        Sub.RequestDeliveryOk(st, d, l.cfg.limit);
        KeptSetSub(l, sub, Sub.RequestDelivery(st, d));
      case DoPollNext(sub) =>
        Sub.PollNextOk(st, l.cfg.limit);
        KeptSetSub(l, sub, Sub.PollNext(st).0);
      case DoPollNextCancel(sub) =>
        Sub.PollNextCancelOk(st, l.cfg.limit);
        KeptSetSub(l, sub, Sub.PollNextCancel(st).0);
      case DoPollDrained(sub) =>
        Sub.PollDrainedOk(st, l.cfg.limit);
        KeptSetSub(l, sub, Sub.PollDrained(st).0);
    }
  }

  lemma KeptFinishIterator(l: Ledger, sub: SubId)
    requires Inv(l) && CanFinishIterator(l, sub)
    ensures Inv(SetSub(l, sub, FinishIterator(l.subs[sub])))
  {
    hide OpsOk;
    hide FlagsOk;
    var m := SetSub(l, sub, FinishIterator(l.subs[sub]));
    SameCore(l, m);
    B.FinishIteratorBooked(l, sub);
    SameOps(l, m);
    SameFlags(l, m);
  }

  lemma KeptCursor(l: Ledger, sub: SubId, c: Cursor)
    requires Inv(l) && HasSub(l, sub) && (c.active ==> l.cursors[sub].active) && Booked(SetCursor(l, sub, c))
    ensures Inv(SetCursor(l, sub, c))
  {
    hide OpsOk;
    hide Booked;
    SameCore(l, SetCursor(l, sub, c));
    SameOps(l, SetCursor(l, sub, c));
  }

  lemma KeptYield(l: Ledger, sub: SubId)
    requires Inv(l) && CanYield(l, sub)
    ensures Inv(SetCursor(l, sub, Yield(l.cursors[sub])))
  {
    B.YieldBooked(l, sub);
    KeptCursor(l, sub, Yield(l.cursors[sub]));
  }

  lemma KeptCloseCursor(l: Ledger, sub: SubId)
    requires Inv(l) && HasSub(l, sub)
    ensures Inv(SetCursor(l, sub, l.cursors[sub].(active := false, pending := None)))
  {
    B.CloseCursorBooked(l, sub);
    KeptCursor(l, sub, l.cursors[sub].(active := false, pending := None));
  }

  // ----- Flags ------------------------------------------------------------------------------------------

  /** `m` differs from `l` in flags only. */
  lemma KeptFlags(l: Ledger, m: Ledger)
    requires Inv(l) && m == l.(flags := m.flags) && FlagsOk(m) && (l.flags.shutdown ==> m.flags.shutdown)
    ensures Inv(m)
  {
    hide FlagsOk;
    SameCore(l, m);
    SameOps(l, m);
  }

  lemma KeptFlagSteps(l: Ledger, a: Action)
    requires Inv(l) && Enabled(l, a)
    requires a.DoRelease? || a.DoPrune? || a.DoCloseAdmission? || a.DoShutdown? || a.DoSwept?
    ensures Apply(l, a).Done? && Inv(Apply(l, a).value)
  {
    hide Core;
    hide Booked;
    hide OpsOk;
    var m := Apply(l, a).value;
    assert FlagsOk(m) by {
      if a.DoPrune? {
        assert forall p | p in l.raw.contexts :: l.raw.contexts[p].sub != a.sub;
        assert forall i | 0 <= i < |l.raw.cancelQueue| :: l.raw.cancelQueue[i].sub != a.sub;
      }
    }
    KeptFlags(l, m);
  }

  // ----- Raw boxes ----------------------------------------------------------------------------------------

  lemma KeptStageOriginal(l: Ledger, sub: SubId, p: Addr)
    requires Inv(l) && CanStageOriginal(l, sub, p)
    ensures Inv(StageOriginal(l, sub, p))
  {
    hide OpsOk;
    hide FlagsOk;
    hide Booked;
    hide P.Inv;
    C.StageOriginalCore(l, sub, p);
    B.StagedAreBoxed(l);
    B.StageOriginalBooked(l, sub, p);
    SameOps(l, StageOriginal(l, sub, p));
    StageOriginalFlags(l, sub, p);
  }

  lemma StageOriginalFlags(l: Ledger, sub: SubId, p: Addr)
    requires FlagsOk(l) && CanStageOriginal(l, sub, p)
    ensures FlagsOk(StageOriginal(l, sub, p))
  {
  }

  lemma KeptQueueCancel(l: Ledger, p: Addr)
    requires Inv(l) && CanQueueCancel(l, p)
    ensures Inv(QueueCancel(l, p))
  {
    hide OpsOk;
    hide FlagsOk;
    hide Booked;
    hide P.Inv;
    C.QueueCancelCore(l, p);
    B.StagedAreBoxed(l);
    B.QueueCancelBooked(l, p);
    SameOps(l, QueueCancel(l, p));
    QueueCancelFlags(l, p);
  }

  lemma QueueCancelFlags(l: Ledger, p: Addr)
    requires FlagsOk(l) && CanQueueCancel(l, p)
    ensures FlagsOk(QueueCancel(l, p))
  {
    assert forall q | NeedsCancel(QueueCancel(l, p).raw.contexts, q) :: NeedsCancel(l.raw.contexts, q);
  }

  lemma CommandKnown(l: Ledger)
    requires Booked(l) && l.raw.cancelQueue != []
    ensures l.raw.cancelQueue[0].sub in l.subs
  {
  }

  lemma KeptStageCancel(l: Ledger, p: Addr)
    requires Inv(l) && CanStageCancel(l, p)
    ensures Inv(StageCancel(l, p))
  {
    hide OpsOk;
    hide FlagsOk;
    hide Booked;
    hide P.Inv;
    CommandKnown(l);
    C.StageCancelCore(l, p);
    B.StagedAreBoxed(l);
    B.StageCancelBooked(l, p);
    SameOps(l, StageCancel(l, p));
    StageCancelFlags(l, p);
  }

  lemma StageCancelFlags(l: Ledger, p: Addr)
    requires FlagsOk(l) && CanStageCancel(l, p)
    ensures FlagsOk(StageCancel(l, p))
  {
    assert forall q | NeedsCancel(StageCancel(l, p).raw.contexts, q) :: NeedsCancel(l.raw.contexts, q);
  }

  // ----- Owned operations ---------------------------------------------------------------------------------

  /** `m` differs from `l` in the places of operations only. */
  lemma KeptOps(l: Ledger, m: Ledger)
    requires Inv(l) && m == l.(ops := m.ops) && OpsOk(m) && (m.ops.staging.Some? ==> !l.flags.shutdown)
    ensures Inv(m)
  {
    hide OpsOk;
    SameCore(l, m);
  }

  lemma EnqueueOps(l: Ledger, op: Op)
    requires OpsOk(l) && op !in l.ops.accepted
    ensures OpsOk(Enqueue(l, op))
  {
    EnqueuePlaces(l.ops, l.owned.contexts, op);
  }

  lemma KeptEnqueue(l: Ledger, op: Op)
    requires Inv(l) && Enabled(l, DoEnqueue(op))
    ensures Inv(Enqueue(l, op))
  {
    hide Core;
    hide Booked;
    hide OpsOk;
    EnqueueOps(l, op);
    KeptOps(l, Enqueue(l, op));
  }

  lemma KeptFlag(l: Ledger, op: Op)
    requires Inv(l) && op in l.ops.accepted
    ensures Inv(l.(ops := l.ops.(flagged := l.ops.flagged + {op})))
  {
    hide Core;
    hide Booked;
    var m := l.(ops := l.ops.(flagged := l.ops.flagged + {op}));
    assert forall x :: Places(m.ops, l.owned.contexts, x) == Places(l.ops, l.owned.contexts, x);
    KeptOps(l, m);
  }

  lemma PopOps(l: Ledger)
    requires OpsOk(l) && CanPopOwned(l)
    ensures OpsOk(PopOwned(l))
  {
    PopPlaces(l);
  }

  lemma KeptPop(l: Ledger)
    requires Inv(l) && CanPopOwned(l)
    ensures Inv(PopOwned(l))
  {
    hide Core;
    hide Booked;
    hide OpsOk;
    PopOps(l);
    KeptOps(l, PopOwned(l));
  }

  lemma KeptPushBack(l: Ledger)
    requires Inv(l) && l.ops.staging.Some?
    ensures Inv(PushBack(l))
  {
    hide Core;
    hide Booked;
    PushBackPlaces(l);
    KeptOps(l, PushBack(l));
  }

  lemma FinishOps(l: Ledger)
    requires OpsOk(l) && l.ops.held != []
    ensures OpsOk(FinishHeld(l))
  {
    FinishPlaces(l.ops, l.owned.contexts);
  }

  lemma KeptFinish(l: Ledger)
    requires Inv(l) && l.ops.held != []
    ensures Inv(FinishHeld(l))
  {
    hide Core;
    hide Booked;
    hide OpsOk;
    FinishOps(l);
    KeptOps(l, FinishHeld(l));
  }

  lemma StageOwnedOps(l: Ledger, p: Addr)
    requires OpsOk(l) && CanStageOwned(l, p)
    ensures OpsOk(StageOwned(l, p))
  {
    StagePlaces(l, p);
  }

  lemma KeptStageOwned(l: Ledger, p: Addr)
    requires Inv(l) && CanStageOwned(l, p)
    ensures Inv(StageOwned(l, p))
  {
    hide OpsOk;
    hide Booked;
    hide Core;
    C.StageOwnedCore(l, p);
    B.PushOwnedBooked(l, StageOwned(l, p), Owned(p));
    StageOwnedOps(l, p);
  }

  lemma KeptStageOwnedCancel(l: Ledger, p: Addr)
    requires Inv(l) && CanStageOwnedCancel(l, p)
    ensures Inv(StageOwnedCancel(l, p))
  {
    hide OpsOk;
    hide Booked;
    hide Core;
    C.StageOwnedCancelCore(l, p);
    B.PushOwnedBooked(l, StageOwnedCancel(l, p), OwnedCancel(p));
    SameOps(l, StageOwnedCancel(l, p));
  }

  /** The flags and the history after `request_owned_cancel`, for a drop or for the sweep. */
  function NoteCancelled(l: Ledger, op: Op, dropping: bool): Ledger {
    if dropping then l.(ops := l.ops.(dropped := l.ops.dropped + {op}))
    else l.(flags := l.flags.(sweepOps := l.flags.sweepOps - {op}))
  }

  lemma CancelOwnedCore(l: Ledger, op: Op, t: Option<Addr>, dropping: bool)
    requires Core(l) && CanCancelOwned(l, op, t, dropping)
    ensures Core(CancelOwned(l, t))
  {
    hide Core;
    if t.Some? {
      C.CancelOwnedCore(l, op, t.value);
    }
  }

  lemma CancelOwnedOps(l: Ledger, op: Op, t: Option<Addr>, dropping: bool)
    requires OpsOk(l) && OwnedShape(l.owned.contexts, l.owned.cancels) && CanCancelOwned(l, op, t, dropping)
    ensures OpsOk(NoteCancelled(CancelOwned(l, t), op, dropping))
  {
    if t.Some? {
      SamePlaces(l.ops, l.owned.contexts, t.value, l.owned.contexts[t.value].(cancelQueued := true));
    }
    var m := NoteCancelled(CancelOwned(l, t), op, dropping);
    assert PlacesOk(m.ops, m.owned.contexts) by {
      assert forall x :: Places(m.ops, m.owned.contexts, x) == Places(l.ops, m.owned.contexts, x);
    }
    if dropping {
      CancelOwnedDropped(l, op, t);
    }
  }

  lemma CancelOwnedFlags(l: Ledger, op: Op, t: Option<Addr>, dropping: bool)
    requires FlagsOk(l) && OwnedShape(l.owned.contexts, l.owned.cancels) && PlacesOk(l.ops, l.owned.contexts)
    requires CanCancelOwned(l, op, t, dropping)
    ensures FlagsOk(NoteCancelled(CancelOwned(l, t), op, dropping))
  {
    var m := NoteCancelled(CancelOwned(l, t), op, dropping);
    forall p | NeedsOwnedCancel(m.owned.contexts, p) && l.flags.shutdown
      ensures m.owned.contexts[p].control in m.flags.sweepOps
    {
      assert NeedsOwnedCancel(l.owned.contexts, p);
      if !dropping && l.owned.contexts[p].control == op {
        if t.Some? {
          OneBox(l.ops, l.owned.contexts, l.owned.cancels, p, t.value);
        } else {
          assert OwnedTarget(l.owned.contexts, op, p);
        }
        assert false;
      }
    }
  }

  lemma OwnedShaped(l: Ledger)
    requires Core(l)
    ensures OwnedShape(l.owned.contexts, l.owned.cancels)
  {
  }

  lemma KeptCancelOwned(l: Ledger, op: Op, t: Option<Addr>, dropping: bool)
    requires Inv(l) && CanCancelOwned(l, op, t, dropping)
    ensures Inv(NoteCancelled(CancelOwned(l, t), op, dropping))
  {
    var m := NoteCancelled(CancelOwned(l, t), op, dropping);
    OwnedShaped(l);
    CancelOwnedCore(l, op, t, dropping);
    SameCore(CancelOwned(l, t), m);
    assert Booked(m) by {
      hide AllBooked;
      hide CopiesOk;
    }
    CancelOwnedOps(l, op, t, dropping);
    CancelOwnedFlags(l, op, t, dropping);
  }

  // ----- Kernel -------------------------------------------------------------------------------------------

  lemma AcceptBooked(l: Ledger)
    requires Core(l) && Booked(l) && l.ring.sq != [] && Accept(l).Done?
    ensures Booked(Accept(l).value)
  {
    B.StagedAreBoxed(l);
    hide Core;
    hide Booked;
    match l.ring.staged[0]
    case Raw(p) => B.AcceptRawBooked(l, p);
    case Owned(p) => B.PopOwnedBooked(l, Accept(l).value);
    case OwnedCancel(p) => B.PopOwnedBooked(l, Accept(l).value);
  }

  lemma AcceptOps(l: Ledger)
    requires OpsOk(l) && l.ring.sq != [] && Accept(l).Done?
    ensures OpsOk(Accept(l).value)
  {
    match l.ring.staged[0]
    case Raw(p) =>
    case Owned(p) =>
      SamePlaces(l.ops, l.owned.contexts, p, l.owned.contexts[p].(phase := S.Submitted));
    case OwnedCancel(p) =>
  }

  lemma AcceptFlags(l: Ledger)
    requires FlagsOk(l) && l.ring.sq != [] && Accept(l).Done?
    ensures FlagsOk(Accept(l).value)
  {
    var m := Accept(l).value;
    assert forall p | NeedsCancel(m.raw.contexts, p) :: NeedsCancel(l.raw.contexts, p);
    assert forall p | NeedsOwnedCancel(m.owned.contexts, p) :: NeedsOwnedCancel(l.owned.contexts, p);
  }

  lemma KeptAccept(l: Ledger)
    requires Inv(l) && l.ring.sq != []
    ensures Accept(l).Done? && Inv(Accept(l).value)
  {
    hide Core;
    hide Booked;
    hide OpsOk;
    hide FlagsOk;
    C.AcceptCore(l);
    AcceptBooked(l);
    AcceptOps(l);
    AcceptFlags(l);
  }

  /** `m` differs from `l` only in what the kernel and the CQ hold. */
  lemma SameStagedBooked(l: Ledger, m: Ledger)
    requires Booked(l) && m == l.(ring := m.ring) && m.ring.staged == l.ring.staged
    ensures Booked(m)
  {
    hide AllBooked;
    hide CopiesOk;
  }

  lemma KeptPost(l: Ledger, c: S.Cqe)
    requires Inv(l) && CanPost(l, c)
    ensures Inv(Post(l, c))
  {
    hide Core;
    hide Booked;
    C.PostCore(l, c);
    SameStagedBooked(l, Post(l, c));
  }

  lemma KeptReap(l: Ledger, n: nat)
    requires Inv(l) && CanReap(l, n)
    ensures Inv(Reap(l, n))
  {
    hide Core;
    hide Booked;
    C.ReapCore(l, n);
    SameStagedBooked(l, Reap(l, n));
  }

  // ----- Dispatch -----------------------------------------------------------------------------------------

  lemma DispatchBooked(l: Ledger)
    requires Core(l) && Booked(l) && l.ring.batch != [] && Dispatch(l).Done?
    ensures Booked(Dispatch(l).value)
  {
    var c := l.ring.batch[0];
    C.FrontKind(l);
    B.StagedAreBoxed(l);
    assert P.TargetsOk(RawPairs(l.raw)) && P.OnceOk(RawPairs(l.raw));
    hide Core;
    hide P.TargetsOk;
    hide P.OnceOk;
    if C.FrontOriginal(l, c) {
      hide Booked;
      B.DispatchOriginalBooked(l, c);
    } else if c.userData in l.raw.contexts {
      hide Booked;
      B.DispatchCancelBooked(l, c, l.raw.contexts[c.userData].target.value);
    } else {
      var m := Dispatch(l).value;
      assert m.raw == l.raw && m.ring.staged == l.ring.staged && m.subs == l.subs && m.cursors == l.cursors;
      assert m.cfg == l.cfg;
      hide AllBooked;
      hide CopiesOk;
    }
  }

  lemma DispatchOps(l: Ledger)
    requires OpsOk(l) && OwnedShape(l.owned.contexts, l.owned.cancels) && l.ring.batch != [] && Dispatch(l).Done?
    ensures OpsOk(Dispatch(l).value)
  {
    var c := l.ring.batch[0];
    if c.userData in l.raw.contexts {
      SameOps(l, Dispatch(l).value);
    } else if c.userData in l.owned.contexts {
      DispatchPlaces(l.ops, l.owned.contexts, c.userData, c.result);
    } else {
      SeePlaces(l.ops, l.owned.contexts, l.owned.cancels[c.userData].target);
    }
  }

  /** Every box of `rd` was one of `rc` and belongs to the same submission; none needs a new cancellation. */
  ghost predicate NoNewRaw(rc: map<Addr, RawContext>, rd: map<Addr, RawContext>) {
    && (forall p | p in rd :: p in rc && rd[p].sub == rc[p].sub)
    && (forall p | NeedsCancel(rd, p) :: NeedsCancel(rc, p))
  }

  ghost predicate NoNewOwned(oc: map<Addr, OwnedContext>, od: map<Addr, OwnedContext>) {
    forall p | NeedsOwnedCancel(od, p) :: NeedsOwnedCancel(oc, p) && od[p].control == oc[p].control
  }

  lemma DispatchNeeds(l: Ledger)
    requires l.ring.batch != [] && Dispatch(l).Done?
    ensures var m := Dispatch(l).value;
            NoNewRaw(l.raw.contexts, m.raw.contexts) && NoNewOwned(l.owned.contexts, m.owned.contexts)
  {
    hide Drop;
    hide Sub.OnOriginal;
    hide Sub.OnCancel;
  }

  lemma FewerNeeds(l: Ledger, m: Ledger)
    requires FlagsOk(l) && NoNewRaw(l.raw.contexts, m.raw.contexts) && NoNewOwned(l.owned.contexts, m.owned.contexts)
    requires m.raw.cancelQueue == l.raw.cancelQueue && m.flags == l.flags && m.cursors == l.cursors
    requires m.ops.staging == l.ops.staging
    ensures FlagsOk(m)
  {
  }

  lemma SameRest(l: Ledger)
    requires l.ring.batch != [] && Dispatch(l).Done?
    ensures var m := Dispatch(l).value;
            m.raw.cancelQueue == l.raw.cancelQueue && m.flags == l.flags && m.cursors == l.cursors && m.ops.staging == l.ops.staging
  {
  }

  lemma DispatchFlags(l: Ledger)
    requires FlagsOk(l) && l.ring.batch != [] && Dispatch(l).Done?
    ensures FlagsOk(Dispatch(l).value)
  {
    hide Dispatch;
    hide FlagsOk;
    DispatchNeeds(l);
    SameRest(l);
    FewerNeeds(l, Dispatch(l).value);
  }

  lemma KeptDispatch(l: Ledger)
    requires Inv(l) && l.ring.batch != []
    ensures Dispatch(l).Done? && Inv(Dispatch(l).value)
  {
    OwnedShaped(l);
    hide Core;
    hide Booked;
    hide OpsOk;
    hide FlagsOk;
    C.DispatchCore(l);
    DispatchBooked(l);
    DispatchOps(l);
    DispatchFlags(l);
  }

  // ----- Every step, every run ----------------------------------------------------------------------------

  lemma KeptRaw(l: Ledger, a: Action)
    requires Inv(l) && Enabled(l, a)
    requires a.DoRegister? || a.DoYield? || a.DoFinishIterator? || a.DoStageOriginal? || a.DoCloseCursor?
             || a.DoQueueCancel? || a.DoStageCancel?
    ensures Apply(l, a).Done? && Inv(Apply(l, a).value)
  {
    hide Inv;
    match a
    case DoRegister(sub, entries) => KeptRegister(l, sub, entries);
    case DoYield(sub) => KeptYield(l, sub);
    case DoFinishIterator(sub) => KeptFinishIterator(l, sub);
    case DoStageOriginal(sub, p) => KeptStageOriginal(l, sub, p);
    case DoCloseCursor(sub) => KeptCloseCursor(l, sub);
    case DoQueueCancel(p) => KeptQueueCancel(l, p);
    case DoStageCancel(p) => KeptStageCancel(l, p);
  }

  lemma KeptOwned(l: Ledger, a: Action)
    requires Inv(l) && Enabled(l, a)
    requires a.DoEnqueue? || a.DoFlag? || a.DoCancelOwned? || a.DoStageOwnedCancel? || a.DoPopOwned?
             || a.DoStageOwned? || a.DoPushBack? || a.DoFinishHeld?
    ensures Apply(l, a).Done? && Inv(Apply(l, a).value)
  {
    hide Inv;
    match a
    case DoEnqueue(op) => KeptEnqueue(l, op);
    case DoFlag(op) => KeptFlag(l, op);
    case DoCancelOwned(op, t, dropping) => KeptCancelOwned(l, op, t, dropping);
    case DoStageOwnedCancel(p) => KeptStageOwnedCancel(l, p);
    case DoPopOwned => KeptPop(l);
    case DoStageOwned(p) => KeptStageOwned(l, p);
    case DoPushBack => KeptPushBack(l);
    case DoFinishHeld => KeptFinish(l);
  }

  /** No step aborts, and every step keeps the invariant. */
  lemma Kept(l: Ledger, a: Action)
    requires Inv(l) && Enabled(l, a)
    ensures Apply(l, a).Done? && Inv(Apply(l, a).value)
  {
    hide Inv;
    match a
    case DoAwaitAdmission(_) => KeptSubSteps(l, a);
    case DoWakeAdmission(_) => KeptSubSteps(l, a);
    case DoRequestDelivery(_, _) => KeptSubSteps(l, a);
    case DoPollNext(_) => KeptSubSteps(l, a);
    case DoPollNextCancel(_) => KeptSubSteps(l, a);
    case DoPollDrained(_) => KeptSubSteps(l, a);
    case DoRelease(_) => KeptFlagSteps(l, a);
    case DoPrune(_) => KeptFlagSteps(l, a);
    case DoCloseAdmission => KeptFlagSteps(l, a);
    case DoShutdown => KeptFlagSteps(l, a);
    case DoSwept(_) => KeptFlagSteps(l, a);
    case DoAccept => KeptAccept(l);
    case DoPost(c) => KeptPost(l, c);
    case DoReap(n) => KeptReap(l, n);
    case DoDispatch => KeptDispatch(l);
    case DoRegister(_, _) => KeptRaw(l, a);
    case DoYield(_) => KeptRaw(l, a);
    case DoFinishIterator(_) => KeptRaw(l, a);
    case DoStageOriginal(_, _) => KeptRaw(l, a);
    case DoCloseCursor(_) => KeptRaw(l, a);
    case DoQueueCancel(_) => KeptRaw(l, a);
    case DoStageCancel(_) => KeptRaw(l, a);
    case _ => KeptOwned(l, a);
  }

  /** The invariant holds at the end of every run, and the next step of the run cannot abort. */
  lemma {:induction false} Runs(l: Ledger, run: seq<Action>, l': Ledger)
    requires Inv(l) && Reaches(l, run, l')
    ensures Inv(l')
    ensures forall a | Enabled(l', a) :: Apply(l', a).Done?
    decreases |run|
  {
    hide Inv;
    if run == [] {
      forall a | Enabled(l', a)
        ensures Apply(l', a).Done?
      {
        Kept(l', a);
      }
    } else {
      Kept(l, run[0]);
      Runs(Apply(l, run[0]).value, run[1..], l');
    }
  }
}
