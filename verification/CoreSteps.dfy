/** Every step of the ledger keeps its core, and no step that the core allows aborts. */
module CoreSteps {
  import opened Prelude
  import opened Ledger
  import opened Shape
  import R = RingSteps
  import S = Slots
  import P = Pairs

  // ----- A new box ----------------------------------------------------------------------------------

  lemma StageOriginalPairs(l: Ledger, sub: SubId, p: Addr)
    requires P.Inv(RawPairs(l.raw)) && CanStageOriginal(l, sub, p)
    ensures P.Inv(RawPairs(StageOriginal(l, sub, p).raw))
  {
    OriginalPut(l.raw.contexts, p, StageOriginal(l, sub, p).raw.contexts[p]);
    P.Kept(RawPairs(l.raw), P.Add(p));
  }

  lemma StageOriginalShaped(l: Ledger, sub: SubId, p: Addr)
    requires Shaped(l) && CanStageOriginal(l, sub, p)
    ensures Shaped(StageOriginal(l, sub, p))
  {
  }

  lemma StageOriginalCore(l: Ledger, sub: SubId, p: Addr)
    requires Core(l) && CanStageOriginal(l, sub, p)
    ensures Core(StageOriginal(l, sub, p))
  {
    var x := StageOriginal(l, sub, p).raw.contexts[p];
    BoxRaw(l.raw.contexts, l.owned.contexts, l.owned.cancels, p, x);
    R.PushRinged(l.ring, Boxes(l), Raw(p), RawBox(x));
    StageOriginalPairs(l, sub, p);
    StageOriginalShaped(l, sub, p);
  }

  lemma StageCancelPairs(l: Ledger, p: Addr)
    requires P.Inv(RawPairs(l.raw)) && CanStageCancel(l, p)
    ensures P.Inv(RawPairs(StageCancel(l, p).raw))
  {
    var m := StageCancel(l, p);
    CancelPut(l.raw.contexts, p, m.raw.contexts[p]);
    assert Targets(m.raw.cancelQueue) == Targets(l.raw.cancelQueue)[1..];
    P.Kept(RawPairs(l.raw), P.Stage(p));
  }

  lemma StageCancelShaped(l: Ledger, p: Addr)
    requires Shaped(l) && CanStageCancel(l, p) && l.raw.cancelQueue[0].sub in l.subs
    ensures Shaped(StageCancel(l, p))
  {
  }

  lemma StageCancelCore(l: Ledger, p: Addr)
    requires Core(l) && CanStageCancel(l, p) && l.raw.cancelQueue[0].sub in l.subs
    ensures Core(StageCancel(l, p))
  {
    var x := StageCancel(l, p).raw.contexts[p];
    BoxRaw(l.raw.contexts, l.owned.contexts, l.owned.cancels, p, x);
    R.PushRinged(l.ring, Boxes(l), Raw(p), RawBox(x));
    StageCancelPairs(l, p);
    StageCancelShaped(l, p);
  }

  lemma StageOwnedPairs(l: Ledger, p: Addr)
    requires P.Inv(OwnedPairs(l.owned)) && CanStageOwned(l, p)
    ensures P.Inv(OwnedPairs(StageOwned(l, p).owned))
  {
    OwnedPut(l.owned.contexts, p, StageOwned(l, p).owned.contexts[p]);
    P.Kept(OwnedPairs(l.owned), P.Add(p));
  }

  lemma StageOwnedShaped(l: Ledger, p: Addr)
    requires Shaped(l) && CanStageOwned(l, p)
    ensures Shaped(StageOwned(l, p))
  {
  }

  lemma StageOwnedCore(l: Ledger, p: Addr)
    requires Core(l) && CanStageOwned(l, p)
    ensures Core(StageOwned(l, p))
  {
    var x := StageOwned(l, p).owned.contexts[p];
    BoxOwned(l.raw.contexts, l.owned.contexts, l.owned.cancels, p, x);
    R.PushRinged(l.ring, Boxes(l), Owned(p), OwnedBox(x));
    StageOwnedPairs(l, p);
    StageOwnedShaped(l, p);
  }

  lemma StageOwnedCancelPairs(l: Ledger, p: Addr)
    requires P.Inv(OwnedPairs(l.owned)) && CanStageOwnedCancel(l, p)
    ensures P.Inv(OwnedPairs(StageOwnedCancel(l, p).owned))
  {
    OwnedCancelPut(l.owned.cancels, p, StageOwnedCancel(l, p).owned.cancels[p]);
    P.Kept(OwnedPairs(l.owned), P.Stage(p));
  }

  lemma StageOwnedCancelShaped(l: Ledger, p: Addr)
    requires Shaped(l) && CanStageOwnedCancel(l, p)
    ensures Shaped(StageOwnedCancel(l, p))
  {
  }

  lemma StageOwnedCancelCore(l: Ledger, p: Addr)
    requires Core(l) && CanStageOwnedCancel(l, p)
    ensures Core(StageOwnedCancel(l, p))
  {
    var x := StageOwnedCancel(l, p).owned.cancels[p];
    BoxOwnedCancel(l.raw.contexts, l.owned.contexts, l.owned.cancels, p, x);
    R.PushRinged(l.ring, Boxes(l), OwnedCancel(p), OwnedCancelBox(x));
    StageOwnedCancelPairs(l, p);
    StageOwnedCancelShaped(l, p);
  }

  // ----- Cancellation requests ----------------------------------------------------------------------

  lemma QueueCancelPairs(l: Ledger, p: Addr)
    requires P.Inv(RawPairs(l.raw)) && CanQueueCancel(l, p)
    ensures P.Inv(RawPairs(QueueCancel(l, p).raw))
  {
    var m := QueueCancel(l, p);
    OriginalPut(l.raw.contexts, p, m.raw.contexts[p]);
    assert Targets(m.raw.cancelQueue) == Targets(l.raw.cancelQueue) + [p];
    P.Kept(RawPairs(l.raw), P.Queue(p));
  }

  lemma QueueCancelShaped(l: Ledger, p: Addr)
    requires Shaped(l) && CanQueueCancel(l, p)
    ensures Shaped(QueueCancel(l, p)) && Boxes(QueueCancel(l, p)) == Boxes(l)
  {
    BoxRaw(l.raw.contexts, l.owned.contexts, l.owned.cancels, p, QueueCancel(l, p).raw.contexts[p]);
  }

  lemma QueueCancelCore(l: Ledger, p: Addr)
    requires Core(l) && CanQueueCancel(l, p)
    ensures Core(QueueCancel(l, p))
  {
    QueueCancelPairs(l, p);
    QueueCancelShaped(l, p);
  }

  lemma CancelOwnedPairs(l: Ledger, op: Op, p: Addr)
    requires P.Inv(OwnedPairs(l.owned)) && OwnedTarget(l.owned.contexts, op, p)
    ensures P.Inv(OwnedPairs(CancelOwned(l, Some(p)).owned))
  {
    OwnedPut(l.owned.contexts, p, CancelOwned(l, Some(p)).owned.contexts[p]);
    P.Kept(OwnedPairs(l.owned), P.Queue(p));
  }

  lemma CancelOwnedShaped(l: Ledger, p: Addr)
    requires Shaped(l) && p in l.owned.contexts
    ensures Shaped(CancelOwned(l, Some(p))) && Boxes(CancelOwned(l, Some(p))) == Boxes(l)
  {
    BoxOwned(l.raw.contexts, l.owned.contexts, l.owned.cancels, p, CancelOwned(l, Some(p)).owned.contexts[p]);
  }

  lemma CancelOwnedCore(l: Ledger, op: Op, p: Addr)
    requires Core(l) && OwnedTarget(l.owned.contexts, op, p)
    ensures Core(CancelOwned(l, Some(p)))
  {
    CancelOwnedPairs(l, op, p);
    CancelOwnedShaped(l, p);
  }

  // ----- Acceptance ---------------------------------------------------------------------------------

  lemma AcceptRawPairs(l: Ledger, p: Addr)
    requires RawShape(l.raw.contexts, l.subs.Keys) && p in l.raw.contexts && l.raw.contexts[p].phase == S.Staged
    ensures var rc := l.raw.contexts[p := l.raw.contexts[p].(phase := S.Submitted)];
            RawPairs(l.raw.(contexts := rc)) == RawPairs(l.raw)
  {
    var x := l.raw.contexts[p].(phase := S.Submitted);
    if x.kind == Original {
      OriginalPut(l.raw.contexts, p, x);
    } else {
      CancelPut(l.raw.contexts, p, x);
    }
  }

  lemma AcceptRawRinged(l: Ledger, p: Addr)
    requires Ringed(l.ring, Boxes(l)) && l.ring.sq != [] && l.ring.staged != [] && l.ring.staged[0] == Raw(p)
    requires p in l.raw.contexts && l.raw.contexts[p].phase == S.Staged
    ensures AcceptRaw(l, p).Done? && Ringed(AcceptRaw(l, p).value.ring, Boxes(AcceptRaw(l, p).value))
  {
    var x := l.raw.contexts[p].(phase := S.Submitted);
    BoxRaw(l.raw.contexts, l.owned.contexts, l.owned.cancels, p, x);
    assert RawBox(x) == Boxes(l)[p].(phase := S.Submitted);
    R.AcceptRinged(l.ring, Boxes(l));
  }

  lemma AcceptRawShaped(l: Ledger, p: Addr)
    requires Shaped(l) && l.ring.sq != [] && l.ring.staged != []
    requires p in l.raw.contexts && l.raw.contexts[p].phase == S.Staged
    ensures AcceptRaw(l, p).Done? && Shaped(AcceptRaw(l, p).value)
  {
  }

  lemma AcceptOwnedPairs(l: Ledger, p: Addr)
    requires p in l.owned.contexts && l.owned.contexts[p].phase == S.Staged
    ensures var oc := l.owned.contexts[p := l.owned.contexts[p].(phase := S.Submitted)];
            OwnedPairs(l.owned.(contexts := oc)) == OwnedPairs(l.owned)
  {
    OwnedPut(l.owned.contexts, p, l.owned.contexts[p].(phase := S.Submitted));
  }

  lemma AcceptOwnedRinged(l: Ledger, p: Addr)
    requires Disjoint(l.raw.contexts, l.owned.contexts, l.owned.cancels)
    requires Ringed(l.ring, Boxes(l)) && l.ring.sq != [] && l.ring.staged != [] && l.ring.staged[0] == Owned(p)
    requires p in l.owned.contexts && l.owned.contexts[p].phase == S.Staged
    ensures AcceptOwned(l, p).Done? && Ringed(AcceptOwned(l, p).value.ring, Boxes(AcceptOwned(l, p).value))
  {
    var x := l.owned.contexts[p].(phase := S.Submitted);
    BoxOwned(l.raw.contexts, l.owned.contexts, l.owned.cancels, p, x);
    assert OwnedBox(x) == Boxes(l)[p].(phase := S.Submitted);
    R.AcceptRinged(l.ring, Boxes(l));
  }

  lemma AcceptOwnedShaped(l: Ledger, p: Addr)
    requires Shaped(l) && l.ring.sq != [] && l.ring.staged != []
    requires p in l.owned.contexts && l.owned.contexts[p].phase == S.Staged
    ensures AcceptOwned(l, p).Done? && Shaped(AcceptOwned(l, p).value)
  {
  }

  lemma AcceptOwnedCancelPairs(l: Ledger, p: Addr)
    requires p in l.owned.cancels
    ensures var cc := l.owned.cancels[p := l.owned.cancels[p].(phase := S.Submitted)];
            OwnedPairs(l.owned.(cancels := cc)) == OwnedPairs(l.owned)
  {
    OwnedCancelPut(l.owned.cancels, p, l.owned.cancels[p].(phase := S.Submitted));
  }

  lemma AcceptOwnedCancelRinged(l: Ledger, p: Addr)
    requires Disjoint(l.raw.contexts, l.owned.contexts, l.owned.cancels)
    requires Ringed(l.ring, Boxes(l)) && l.ring.sq != [] && l.ring.staged != [] && l.ring.staged[0] == OwnedCancel(p)
    requires p in l.owned.cancels && l.owned.cancels[p].phase == S.Staged
    ensures AcceptOwnedCancel(l, p).Done?
    ensures Ringed(AcceptOwnedCancel(l, p).value.ring, Boxes(AcceptOwnedCancel(l, p).value))
  {
    var x := l.owned.cancels[p].(phase := S.Submitted);
    BoxOwnedCancel(l.raw.contexts, l.owned.contexts, l.owned.cancels, p, x);
    assert OwnedCancelBox(x) == Boxes(l)[p].(phase := S.Submitted);
    R.AcceptRinged(l.ring, Boxes(l));
  }

  lemma AcceptOwnedCancelShaped(l: Ledger, p: Addr)
    requires Shaped(l) && l.ring.sq != [] && l.ring.staged != []
    requires p in l.owned.cancels && l.owned.cancels[p].phase == S.Staged
    ensures AcceptOwnedCancel(l, p).Done? && Shaped(AcceptOwnedCancel(l, p).value)
  {
  }

  /** The box of the oldest SQE is in the map its staged tag names, and it is staged. */
  lemma FrontBox(l: Ledger)
    requires Shaped(l) && Ringed(l.ring, Boxes(l)) && l.ring.sq != []
    ensures l.ring.staged != []
    ensures match l.ring.staged[0]
            case Raw(p) => p in l.raw.contexts && l.raw.contexts[p].phase == S.Staged
            case Owned(p) => p in l.owned.contexts && l.owned.contexts[p].phase == S.Staged
            case OwnedCancel(p) => p in l.owned.cancels && l.owned.cancels[p].phase == S.Staged
  {
    R.FrontStaged(l.ring, Boxes(l));
  }

  /** Acceptance never aborts and keeps the core. */
  lemma AcceptCore(l: Ledger)
    requires Core(l) && l.ring.sq != []
    ensures Accept(l).Done? && Core(Accept(l).value)
  {
    FrontBox(l);
    match l.ring.staged[0]
    case Raw(p) =>
      AcceptRawPairs(l, p);
      AcceptRawRinged(l, p);
      AcceptRawShaped(l, p);
    case Owned(p) =>
      AcceptOwnedPairs(l, p);
      AcceptOwnedRinged(l, p);
      AcceptOwnedShaped(l, p);
    case OwnedCancel(p) =>
      AcceptOwnedCancelPairs(l, p);
      AcceptOwnedCancelRinged(l, p);
      AcceptOwnedCancelShaped(l, p);
  }

  lemma BodiesShaped(l: Ledger)
    requires Shaped(l)
    ensures BodyShape(Boxes(l))
  {
  }

  lemma PostCore(l: Ledger, c: S.Cqe)
    requires Core(l) && CanPost(l, c)
    ensures Core(Post(l, c))
  {
    BodiesShaped(l);
    PostRinged(l, c);
  }

  lemma PostRinged(l: Ledger, c: S.Cqe)
    requires BodyShape(Boxes(l)) && Ringed(l.ring, Boxes(l)) && CanPost(l, c)
    ensures Ringed(Post(l, c).ring, Boxes(l))
  {
    R.PostRinged(l.ring, Boxes(l), Post(l, c).ring, c);
  }

  lemma ReapCore(l: Ledger, n: nat)
    requires Core(l) && CanReap(l, n)
    ensures Core(Reap(l, n))
  {
    R.ReapRinged(l.ring, Boxes(l), n);
  }

  // ----- Dispatch of an original --------------------------------------------------------------------

  ghost predicate FrontOriginal(l: Ledger, c: S.Cqe) {
    && l.ring.batch != [] && l.ring.batch[0] == c
    && c.userData in l.raw.contexts && l.raw.contexts[c.userData].kind == Original
    && l.raw.contexts[c.userData].phase == S.Submitted
    && l.raw.contexts[c.userData].sub in l.subs
  }

  lemma DispatchOriginalPairs(l: Ledger, c: S.Cqe)
    requires P.Inv(RawPairs(l.raw)) && FrontOriginal(l, c)
    ensures P.Inv(RawPairs(DispatchOriginal(l, c).raw))
  {
    var a := c.userData;
    var x := l.raw.contexts[a];
    if !c.more {
      P.Kept(RawPairs(l.raw), P.FinishOriginal(a));
      if x.cancelQueued && !x.cancelSeen {
        OriginalPut(l.raw.contexts, a, x.(phase := S.Terminal));
      } else {
        RawGone(l.raw.contexts, a);
        assert RawCancels(l.raw.contexts) - {a} == RawCancels(l.raw.contexts);
      }
    }
  }

  lemma DispatchOriginalRinged(l: Ledger, c: S.Cqe)
    requires Disjoint(l.raw.contexts, l.owned.contexts, l.owned.cancels)
    requires Ringed(l.ring, Boxes(l)) && FrontOriginal(l, c)
    ensures Ringed(DispatchOriginal(l, c).ring, Boxes(DispatchOriginal(l, c)))
  {
    var a := c.userData;
    var x := l.raw.contexts[a];
    if c.more {
      R.DropMore(l.ring, Boxes(l));
    } else if x.cancelQueued && !x.cancelSeen {
      BoxRaw(l.raw.contexts, l.owned.contexts, l.owned.cancels, a, x.(phase := S.Terminal));
      R.DropKeep(l.ring, Boxes(l));
    } else {
      BoxRawGone(l.raw.contexts, l.owned.contexts, l.owned.cancels, a);
      R.DropGone(l.ring, Boxes(l));
    }
  }

  lemma DispatchOriginalShaped(l: Ledger, c: S.Cqe)
    requires Shaped(l) && FrontOriginal(l, c)
    ensures Shaped(DispatchOriginal(l, c))
  {
  }

  lemma DispatchOriginalCore(l: Ledger, c: S.Cqe)
    requires Core(l) && FrontOriginal(l, c)
    ensures Core(DispatchOriginal(l, c))
  {
    DispatchOriginalPairs(l, c);
    DispatchOriginalRinged(l, c);
    DispatchOriginalShaped(l, c);
  }

  // ----- Dispatch of a raw cancellation -------------------------------------------------------------

  ghost predicate FrontCancel(l: Ledger, c: S.Cqe, t: Addr) {
    && l.ring.batch != [] && l.ring.batch[0] == c && !c.more
    && c.userData in l.raw.contexts && l.raw.contexts[c.userData].kind == Cancel
    && l.raw.contexts[c.userData].sub in l.subs
    && l.raw.contexts[c.userData].target == Some(t)
    && t != c.userData && t in l.raw.contexts && l.raw.contexts[t].kind == Original
  }

  /** A raw cancellation aims at another boxed original that waits for it. */
  lemma TargetBoxed(raw: RawSide, subs: set<SubId>, a: Addr)
    requires P.TargetsOk(RawPairs(raw)) && RawShape(raw.contexts, subs)
    requires a in raw.contexts && raw.contexts[a].kind == Cancel
    ensures raw.contexts[a].target.Some?
    ensures var t := raw.contexts[a].target.value;
            && t != a && t in raw.contexts && raw.contexts[t].kind == Original
            && raw.contexts[t].cancelQueued && !raw.contexts[t].cancelSeen
  {
    var t := raw.contexts[a].target.value;
    assert RawCancels(raw.contexts)[a] == t;
    assert P.Awaiting(RawPairs(raw), t);
  }

  lemma DispatchCancelPairs(l: Ledger, c: S.Cqe, t: Addr)
    requires P.Inv(RawPairs(l.raw)) && FrontCancel(l, c, t)
    ensures P.Inv(RawPairs(DispatchCancel(l, c).raw))
  {
    hide P.Inv;
    var a := c.userData;
    var rest := l.raw.contexts - {a};
    RawGone(l.raw.contexts, a);
    assert RawOriginals(rest) == RawOriginals(l.raw.contexts);
    P.Kept(RawPairs(l.raw), P.FinishCancel(a));
    if rest[t].phase == S.Terminal {
      RawGone(rest, t);
      assert RawCancels(rest) - {t} == RawCancels(rest);
    } else {
      OriginalPut(rest, t, rest[t].(cancelSeen := true));
    }
  }

  /** Whether the target is forgotten with its cancellation or only learns of it, the ring is unaffected. */
  lemma SeeTargetRinged(r: Ring, rc: map<Addr, RawContext>, oc: map<Addr, OwnedContext>,
                        cc: map<Addr, OwnedCancelContext>, t: Addr)
    requires t in rc && t !in oc && t !in cc && Ringed(r, BoxMap(rc, oc, cc))
    ensures Ringed(r, BoxMap(if rc[t].phase == S.Terminal then rc - {t} else rc[t := rc[t].(cancelSeen := true)], oc, cc))
  {
    var boxes := BoxMap(rc, oc, cc);
    if rc[t].phase == S.Terminal {
      BoxRawGone(rc, oc, cc, t);
      R.ForgetRinged(r, boxes, t);
    } else {
      BoxRaw(rc, oc, cc, t, rc[t].(cancelSeen := true));
      assert boxes[t := boxes[t]] == boxes;
    }
  }

  lemma DispatchCancelRinged(l: Ledger, c: S.Cqe, t: Addr)
    requires Disjoint(l.raw.contexts, l.owned.contexts, l.owned.cancels)
    requires Ringed(l.ring, Boxes(l)) && FrontCancel(l, c, t)
    ensures Ringed(DispatchCancel(l, c).ring, Boxes(DispatchCancel(l, c)))
  {
    BoxRawGone(l.raw.contexts, l.owned.contexts, l.owned.cancels, c.userData);
    R.DropGone(l.ring, Boxes(l));
    SeeTargetRinged(Drop(l.ring), l.raw.contexts - {c.userData}, l.owned.contexts, l.owned.cancels, t);
  }

  lemma DispatchCancelShaped(l: Ledger, c: S.Cqe, t: Addr)
    requires Shaped(l) && FrontCancel(l, c, t)
    ensures Shaped(DispatchCancel(l, c))
  {
  }

  lemma DispatchCancelCore(l: Ledger, c: S.Cqe, t: Addr)
    requires Core(l) && FrontCancel(l, c, t)
    ensures Core(DispatchCancel(l, c))
  {
    DispatchCancelPairs(l, c, t);
    DispatchCancelRinged(l, c, t);
    DispatchCancelShaped(l, c, t);
  }

  // ----- Dispatch of an owned original --------------------------------------------------------------

  ghost predicate FrontOwned(l: Ledger, c: S.Cqe) {
    && l.ring.batch != [] && l.ring.batch[0] == c && !c.more
    && c.userData in l.owned.contexts && l.owned.contexts[c.userData].phase == S.Submitted
    && l.owned.contexts[c.userData].handler.Some?
  }

  lemma DispatchOwnedPairs(l: Ledger, c: S.Cqe)
    requires P.Inv(OwnedPairs(l.owned)) && FrontOwned(l, c)
    ensures P.Inv(OwnedPairs(DispatchOwned(l, c).value.owned))
  {
    var a := c.userData;
    var x := l.owned.contexts[a];
    P.Kept(OwnedPairs(l.owned), P.FinishOriginal(a));
    if x.cancelQueued && !x.cancelSeen {
      OwnedPut(l.owned.contexts, a, x.(phase := S.Terminal, handler := None));
    } else {
      OwnedGone(l.owned.contexts, a);
    }
  }

  lemma DispatchOwnedRinged(l: Ledger, c: S.Cqe)
    requires Disjoint(l.raw.contexts, l.owned.contexts, l.owned.cancels)
    requires Ringed(l.ring, Boxes(l)) && FrontOwned(l, c)
    ensures Ringed(DispatchOwned(l, c).value.ring, Boxes(DispatchOwned(l, c).value))
  {
    var a := c.userData;
    var x := l.owned.contexts[a];
    if x.cancelQueued && !x.cancelSeen {
      BoxOwned(l.raw.contexts, l.owned.contexts, l.owned.cancels, a, x.(phase := S.Terminal, handler := None));
      R.DropKeep(l.ring, Boxes(l));
    } else {
      BoxOwnedGone(l.raw.contexts, l.owned.contexts, l.owned.cancels, a);
      R.DropGone(l.ring, Boxes(l));
    }
  }

  lemma DispatchOwnedShaped(l: Ledger, c: S.Cqe)
    requires Shaped(l) && FrontOwned(l, c)
    ensures Shaped(DispatchOwned(l, c).value)
  {
  }

  lemma DispatchOwnedCore(l: Ledger, c: S.Cqe)
    requires Core(l) && FrontOwned(l, c)
    ensures Core(DispatchOwned(l, c).value)
  {
    DispatchOwnedPairs(l, c);
    DispatchOwnedRinged(l, c);
    DispatchOwnedShaped(l, c);
  }

  // ----- Dispatch of an owned cancellation ----------------------------------------------------------

  ghost predicate FrontOwnedCancel(l: Ledger, c: S.Cqe) {
    && l.ring.batch != [] && l.ring.batch[0] == c && !c.more
    && c.userData in l.owned.cancels && l.owned.cancels[c.userData].phase == S.Submitted
    && l.owned.cancels[c.userData].target in l.owned.contexts
  }

  lemma OwnedTargetBoxed(o: OwnedSide, a: Addr)
    requires P.TargetsOk(OwnedPairs(o)) && a in o.cancels
    ensures var t := o.cancels[a].target;
            t in o.contexts && o.contexts[t].cancelQueued && !o.contexts[t].cancelSeen
  {
    assert OwnedCancels(o.cancels)[a] == o.cancels[a].target;
    assert P.Awaiting(OwnedPairs(o), o.cancels[a].target);
  }

  lemma DispatchOwnedCancelPairs(l: Ledger, c: S.Cqe)
    requires P.Inv(OwnedPairs(l.owned)) && FrontOwnedCancel(l, c)
    ensures P.Inv(OwnedPairs(DispatchOwnedCancel(l, c).value.owned))
  {
    var t := l.owned.cancels[c.userData].target;
    OwnedCancelGone(l.owned.cancels, c.userData);
    P.Kept(OwnedPairs(l.owned), P.FinishCancel(c.userData));
    if l.owned.contexts[t].phase == S.Terminal {
      OwnedGone(l.owned.contexts, t);
    } else {
      OwnedPut(l.owned.contexts, t, l.owned.contexts[t].(cancelSeen := true));
    }
  }

  lemma DispatchOwnedCancelRinged(l: Ledger, c: S.Cqe)
    requires Disjoint(l.raw.contexts, l.owned.contexts, l.owned.cancels)
    requires Ringed(l.ring, Boxes(l)) && FrontOwnedCancel(l, c)
    ensures Ringed(DispatchOwnedCancel(l, c).value.ring, Boxes(DispatchOwnedCancel(l, c).value))
  {
    hide Ringed;
    var a := c.userData;
    var t := l.owned.cancels[a].target;
    var rest := l.owned.cancels - {a};
    BoxOwnedCancelGone(l.raw.contexts, l.owned.contexts, l.owned.cancels, a);
    R.DropGone(l.ring, Boxes(l));
    var boxes := BoxMap(l.raw.contexts, l.owned.contexts, rest);
    if l.owned.contexts[t].phase == S.Terminal {
      BoxOwnedGone(l.raw.contexts, l.owned.contexts, rest, t);
      R.ForgetRinged(Drop(l.ring), boxes, t);
    } else {
      BoxOwned(l.raw.contexts, l.owned.contexts, rest, t, l.owned.contexts[t].(cancelSeen := true));
      assert boxes[t := boxes[t]] == boxes;
    }
  }

  lemma DispatchOwnedCancelShaped(l: Ledger, c: S.Cqe)
    requires Shaped(l) && FrontOwnedCancel(l, c)
    ensures Shaped(DispatchOwnedCancel(l, c).value)
  {
  }

  lemma DispatchOwnedCancelCore(l: Ledger, c: S.Cqe)
    requires Core(l) && FrontOwnedCancel(l, c)
    ensures Core(DispatchOwnedCancel(l, c).value)
  {
    DispatchOwnedCancelPairs(l, c);
    DispatchOwnedCancelRinged(l, c);
    DispatchOwnedCancelShaped(l, c);
  }

  // ----- Dispatch -----------------------------------------------------------------------------------

  /** The next CQE is of exactly one of four kinds, and each has what its handling relies on. */
  lemma FrontKind(l: Ledger)
    requires Core(l) && l.ring.batch != []
    ensures var c := l.ring.batch[0];
            || FrontOriginal(l, c)
            || (c.userData in l.raw.contexts && l.raw.contexts[c.userData].phase == S.Submitted
                && l.raw.contexts[c.userData].target.Some?
                && FrontCancel(l, c, l.raw.contexts[c.userData].target.value))
            || FrontOwned(l, c)
            || FrontOwnedCancel(l, c)
    ensures l.ring.batch[0].userData != 0
  {
    var a := l.ring.batch[0].userData;
    R.FrontCqe(l.ring, Boxes(l));
    if a in l.raw.contexts && l.raw.contexts[a].kind == Cancel {
      TargetBoxed(l.raw, l.subs.Keys, a);
    } else if a in l.owned.cancels {
      OwnedTargetBoxed(l.owned, a);
    }
  }

  /** Dispatch never aborts and keeps the core. */
  lemma DispatchCore(l: Ledger)
    requires Core(l) && l.ring.batch != []
    ensures Dispatch(l).Done? && Core(Dispatch(l).value)
  {
    var c := l.ring.batch[0];
    FrontKind(l);
    if FrontOriginal(l, c) {
      DispatchOriginalCore(l, c);
    } else if c.userData in l.raw.contexts {
      DispatchCancelCore(l, c, l.raw.contexts[c.userData].target.value);
    } else if FrontOwned(l, c) {
      DispatchOwnedCore(l, c);
    } else {
      DispatchOwnedCancelCore(l, c);
    }
  }
}
