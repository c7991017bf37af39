/** What the submission queue, the kernel and the completion queue do to the boxes they mention. */
module RingSteps {
  import opened Prelude
  import opened Ledger
  import opened Shape
  import S = Slots

  lemma PushRinged(r: Ring, boxes: map<Addr, Box>, st: StagedContext, b: Box)
    requires Ringed(r, boxes) && st.p != 0 && st.p !in boxes && b.phase == S.Staged
    requires Tagged(st, boxes[st.p := b])
    ensures Ringed(Push(r, st, b.body), boxes[st.p := b])
  {
    PushSlots(r, boxes, st, b);
    PushSq(r, boxes, st, b);
  }

  lemma PushSq(r: Ring, boxes: map<Addr, Box>, st: StagedContext, b: Box)
    requires SqOk(r, boxes) && KernelOk(r, boxes) && st.p !in boxes && Tagged(st, boxes[st.p := b])
    ensures SqOk(Push(r, st, b.body), boxes[st.p := b]) && KernelOk(Push(r, st, b.body), boxes[st.p := b])
  {
    var t := Push(r, st, b.body);
    assert forall i | 0 <= i < |r.staged| :: t.staged[i] == r.staged[i] && Tagged(r.staged[i], boxes);
    assert forall i | 0 <= i < |r.sq| :: t.sq[i] == r.sq[i];
  }

  lemma PushSlots(r: Ring, boxes: map<Addr, Box>, st: StagedContext, b: Box)
    requires S.Inv(SlotsOf(r, boxes)) && st.p != 0 && st.p !in boxes && b.phase == S.Staged
    ensures S.Inv(SlotsOf(Push(r, st, b.body), boxes[st.p := b]))
  {
    PhasesPut(boxes, st.p, b);
    AddrsPush(r.staged, st);
    S.Kept(SlotsOf(r, boxes), S.Stage(st.p));
    assert SlotsOf(Push(r, st, b.body), boxes[st.p := b]) == S.Apply(SlotsOf(r, boxes), S.Stage(st.p));
  }

  /** The SQ entry at the front belongs to the staged box at the front. */
  lemma FrontStaged(r: Ring, boxes: map<Addr, Box>)
    requires Ringed(r, boxes) && r.sq != []
    ensures r.staged != [] && r.sq[0].userData == r.staged[0].p && Tagged(r.staged[0], boxes)
    ensures boxes[r.staged[0].p].phase == S.Staged
    ensures boxes[r.staged[0].p].body == r.sq[0].body
  {
    AddrsPop(r.staged);
    assert SlotsOf(r, boxes).phase[r.staged[0].p] == S.Staged;
  }

  lemma AcceptSlots(r: Ring, boxes: map<Addr, Box>)
    requires S.Inv(SlotsOf(r, boxes)) && r.sq != [] && r.staged != [] && r.sq[0].userData == r.staged[0].p
    requires r.staged[0].p in boxes
    ensures var p := r.staged[0].p;
            S.Inv(SlotsOf(AcceptFront(r), boxes[p := boxes[p].(phase := S.Submitted)]))
  {
    var p := r.staged[0].p;
    var b := boxes[p].(phase := S.Submitted);
    PhasesPut(boxes, p, b);
    AddrsPop(r.staged);
    S.Kept(SlotsOf(r, boxes), S.Accept);
    assert AcceptFront(r).inflight.Keys == r.inflight.Keys + {p};
    assert SlotsOf(AcceptFront(r), boxes[p := b]) == S.Apply(SlotsOf(r, boxes), S.Accept);
  }

  lemma AcceptSq(r: Ring, boxes: map<Addr, Box>, boxes': map<Addr, Box>)
    requires SqOk(r, boxes) && KernelOk(r, boxes) && r.sq != [] && r.staged != []
    requires boxes'.Keys == boxes.Keys
    requires forall a | a in boxes :: boxes'[a].body == boxes[a].body && boxes'[a].tag == boxes[a].tag
    ensures SqOk(AcceptFront(r), boxes') && KernelOk(AcceptFront(r), boxes')
  {
    var t := AcceptFront(r);
    assert forall i | 0 <= i < |t.staged| :: t.staged[i] == r.staged[i + 1] && Tagged(r.staged[i + 1], boxes);
    assert forall i | 0 <= i < |t.sq| :: t.sq[i] == r.sq[i + 1];
    assert Tagged(r.staged[0], boxes) && r.sq[0] == Sqe(r.staged[0].p, boxes[r.staged[0].p].body);
  }

  lemma AcceptRinged(r: Ring, boxes: map<Addr, Box>)
    requires Ringed(r, boxes) && r.sq != [] && r.staged != [] && r.staged[0].p in boxes
    ensures var p := r.staged[0].p;
            Ringed(AcceptFront(r), boxes[p := boxes[p].(phase := S.Submitted)])
  {
    var p := r.staged[0].p;
    FrontStaged(r, boxes);
    AcceptSlots(r, boxes);
    AcceptSq(r, boxes, boxes[p := boxes[p].(phase := S.Submitted)]);
  }

  lemma PostRinged(r: Ring, boxes: map<Addr, Box>, r': Ring, c: S.Cqe)
    requires Ringed(r, boxes) && BodyShape(boxes)
    requires c.userData in r.inflight && (c.more ==> r.inflight[c.userData].Caller?)
    requires r' == r.(cq := r.cq + [c], inflight := if c.more then r.inflight else r.inflight - {c.userData})
    ensures Ringed(r', boxes)
  {
    assert r'.batch + r'.cq == (r.batch + r.cq) + [c];
    PostSlots(r, boxes, r', c);
  }

  lemma PostSlots(r: Ring, boxes: map<Addr, Box>, r': Ring, c: S.Cqe)
    requires S.Inv(SlotsOf(r, boxes)) && c.userData in r.inflight
    requires r' == r.(cq := r.cq + [c], inflight := if c.more then r.inflight else r.inflight - {c.userData})
    ensures S.Inv(SlotsOf(r', boxes))
  {
    assert r'.batch + r'.cq == (r.batch + r.cq) + [c];
    assert r'.inflight.Keys == if c.more then r.inflight.Keys else r.inflight.Keys - {c.userData};
    S.Kept(SlotsOf(r, boxes), S.Post(c));
    assert SlotsOf(r', boxes) == S.Apply(SlotsOf(r, boxes), S.Post(c));
  }

  lemma ReapRinged(r: Ring, boxes: map<Addr, Box>, n: nat)
    requires Ringed(r, boxes) && r.batch == [] && n <= |r.cq|
    ensures Ringed(r.(batch := r.cq[..n], cq := r.cq[n..]), boxes)
  {
    assert r.cq[..n] + r.cq[n..] == r.batch + r.cq;
  }

  /** The next CQE finds its box submitted; only a raw original may be multishot. */
  lemma FrontCqe(r: Ring, boxes: map<Addr, Box>)
    requires Ringed(r, boxes) && r.batch != []
    ensures var c := r.batch[0];
            && c.userData != 0 && c.userData in boxes && boxes[c.userData].phase == S.Submitted
            && (c.more ==> boxes[c.userData].tag == RawOriginal)
  {
    assert SlotsOf(r, boxes).pending[0] == r.batch[0];
  }

  lemma DropPending(r: Ring)
    requires r.batch != []
    ensures Drop(r).batch + Drop(r).cq == (r.batch + r.cq)[1..]
    ensures (r.batch + r.cq)[0] == r.batch[0]
  {
  }

  lemma DropMore(r: Ring, boxes: map<Addr, Box>)
    requires Ringed(r, boxes) && r.batch != [] && r.batch[0].more
    ensures Ringed(Drop(r), boxes)
  {
    DropPending(r);
    S.Kept(SlotsOf(r, boxes), S.Dispatch(true));
    assert SlotsOf(Drop(r), boxes) == S.Apply(SlotsOf(r, boxes), S.Dispatch(true));
    DropKernel(r, boxes, boxes);
  }

  lemma DropKernel(r: Ring, boxes: map<Addr, Box>, boxes': map<Addr, Box>)
    requires SqOk(r, boxes) && KernelOk(r, boxes) && r.batch != []
    requires boxes'.Keys == boxes.Keys
    requires forall a | a in boxes :: boxes'[a].body == boxes[a].body && boxes'[a].tag == boxes[a].tag
    ensures SqOk(Drop(r), boxes') && KernelOk(Drop(r), boxes')
  {
    DropPending(r);
    var q, q' := r.batch + r.cq, Drop(r).batch + Drop(r).cq;
    assert forall i | 0 <= i < |q'| :: q'[i] == q[i + 1];
    assert forall i | 0 <= i < |r.staged| :: Tagged(r.staged[i], boxes) ==> Tagged(r.staged[i], boxes');
  }

  /** A final CQE whose box stays, now terminal. */
  lemma DropKeep(r: Ring, boxes: map<Addr, Box>)
    requires Ringed(r, boxes) && r.batch != [] && !r.batch[0].more && r.batch[0].userData in boxes
    ensures var a := r.batch[0].userData;
            Ringed(Drop(r), boxes[a := boxes[a].(phase := S.Terminal)])
  {
    var a := r.batch[0].userData;
    var boxes' := boxes[a := boxes[a].(phase := S.Terminal)];
    DropPending(r);
    PhasesPut(boxes, a, boxes'[a]);
    S.Kept(SlotsOf(r, boxes), S.Dispatch(true));
    assert SlotsOf(Drop(r), boxes') == S.Apply(SlotsOf(r, boxes), S.Dispatch(true));
    DropKernel(r, boxes, boxes');
  }

  lemma ForgetSq(r: Ring, boxes: map<Addr, Box>, a: Addr)
    requires SqOk(r, boxes) && a !in Addrs(r.staged)
    ensures SqOk(r, boxes - {a})
  {
    forall i | 0 <= i < |r.staged|
      ensures r.staged[i].p != a && Tagged(r.staged[i], boxes - {a})
    {
      assert Addrs(r.staged)[i] == r.staged[i].p;
      assert Tagged(r.staged[i], boxes);
    }
  }

  /** A final CQE whose box goes. */
  lemma DropGone(r: Ring, boxes: map<Addr, Box>)
    requires Ringed(r, boxes) && r.batch != [] && !r.batch[0].more && r.batch[0].userData in boxes
    ensures Ringed(Drop(r), boxes - {r.batch[0].userData})
  {
    var a := r.batch[0].userData;
    DropPending(r);
    S.FinalUnused(SlotsOf(r, boxes));
    DropGoneSlots(r, boxes);
    ForgetSq(r, boxes, a);
    var q, q' := r.batch + r.cq, Drop(r).batch + Drop(r).cq;
    assert forall i | 0 <= i < |q'| :: q'[i] == q[i + 1];
  }

  lemma DropGoneSlots(r: Ring, boxes: map<Addr, Box>)
    requires S.Inv(SlotsOf(r, boxes)) && r.batch != [] && !r.batch[0].more
    ensures S.Inv(SlotsOf(Drop(r), boxes - {r.batch[0].userData}))
  {
    var a := r.batch[0].userData;
    DropPending(r);
    PhasesGone(boxes, a);
    S.Kept(SlotsOf(r, boxes), S.Dispatch(false));
    assert SlotsOf(Drop(r), boxes - {a}) == S.Apply(SlotsOf(r, boxes), S.Dispatch(false));
  }

  /** A terminal box is forgotten. */
  lemma ForgetRinged(r: Ring, boxes: map<Addr, Box>, a: Addr)
    requires Ringed(r, boxes) && a in boxes && boxes[a].phase == S.Terminal
    ensures Ringed(r, boxes - {a})
  {
    PhasesGone(boxes, a);
    S.TerminalUnused(SlotsOf(r, boxes), a);
    S.Kept(SlotsOf(r, boxes), S.Forget(a));
    assert SlotsOf(r, boxes - {a}) == S.Apply(SlotsOf(r, boxes), S.Forget(a));
    ForgetSq(r, boxes, a);
    ForgetKernel(r, boxes, a);
  }

  lemma ForgetKernel(r: Ring, boxes: map<Addr, Box>, a: Addr)
    requires KernelOk(r, boxes) && S.Inv(SlotsOf(r, boxes)) && a in boxes && boxes[a].phase == S.Terminal
    ensures KernelOk(r, boxes - {a})
  {
    assert forall i | 0 <= i < |r.batch + r.cq| :: SlotsOf(r, boxes).pending[i] == (r.batch + r.cq)[i];
  }

  /** An entry about to be accepted is not in the kernel yet. */
  lemma FrontFree(r: Ring, boxes: map<Addr, Box>)
    requires Ringed(r, boxes) && r.sq != []
    ensures r.staged != [] && |AcceptFront(r).inflight| == |r.inflight| + 1
  {
    FrontStaged(r, boxes);
    var a := r.sq[0].userData;
    assert SlotsOf(r, boxes).phase[a] == S.Staged;
    assert a !in SlotsOf(r, boxes).inflight;
    assert AcceptFront(r).inflight.Keys == r.inflight.Keys + {a};
    assert |AcceptFront(r).inflight.Keys| == |AcceptFront(r).inflight| && |r.inflight.Keys| == |r.inflight|;
  }
}
