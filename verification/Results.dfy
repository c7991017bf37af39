/**
  What callers get is what the kernel posted: every CQE reaches the one it is meant for, in the order of
  posting, once, and with its own result.
 */
module Results {
  import opened Prelude
  import opened Ledger
  import opened Shape
  import opened Traces
  import opened Operations
  import opened Safety
  import A = Accounts
  import D = Delivery
  import P = Pairs
  import Promises
  import S = Slots
  import Sub = Submission

  /** Whoever waits for CQEs: the stream of a submission, its cancellation handle, or an owned operation. */
  datatype Reader = StreamOf(sub: SubId) | CancelsOf(sub: SubId) | HandlerOf(op: Op)

  /**
    What a CQE says to `r` while its box exists: the position and user data of the original it concerns,
    and the kernel's result and MORE flag.
   */
  function Said(l: Ledger, c: S.Cqe, r: Reader): seq<Sub.Completion> {
    match r
    case StreamOf(sub) =>
      if A.OriginalOf(l.raw.contexts, c.userData, sub) then
        var x := l.raw.contexts[c.userData];
        [Sub.Completion(x.index, x.userData, c.result, c.more)]
      else []
    case CancelsOf(sub) =>
      if CancelsOriginal(l.raw.contexts, c.userData, sub) then
        var x := l.raw.contexts[l.raw.contexts[c.userData].target.value];
        [Sub.Completion(x.index, x.userData, c.result, c.more)]
      else []
    case HandlerOf(op) =>
      if c.userData in l.owned.contexts && l.owned.contexts[c.userData].control == op then
        [Sub.Completion(0, 0, c.result, c.more)]
      else []
  }

  predicate CancelsOriginal(rc: map<Addr, RawContext>, p: Addr, sub: SubId) {
    && p in rc && rc[p].kind == Cancel && rc[p].target.Some?
    && A.OriginalOf(rc, rc[p].target.value, sub)
  }

  function SaidAll(l: Ledger, q: seq<S.Cqe>, r: Reader): seq<Sub.Completion> {
    if q == [] then [] else Said(l, q[0], r) + SaidAll(l, q[1..], r)
  }

  /** The results with which an operation was completed. */
  function Outcomes(fs: seq<Finish>, op: Op): seq<Sub.Completion> {
    if fs == [] then []
    else
      (if fs[0].op == op && fs[0].outcome.Completed? then [Sub.Completion(0, 0, fs[0].outcome.result, false)] else [])
      + Outcomes(fs[1..], op)
  }

  /** What has reached the reader. */
  function Received(l: Ledger, r: Reader): seq<Sub.Completion> {
    match r
    case StreamOf(sub) => if sub in l.subs then l.subs[sub].history.arrived else []
    case CancelsOf(sub) => if sub in l.subs then l.subs[sub].history.cancels.arrived else []
    case HandlerOf(op) => Outcomes(l.ops.finished + l.ops.held, op)
  }

  /** What waits in the CQ and in the driver's hands. */
  function OnTheWay(l: Ledger, r: Reader): seq<Sub.Completion> {
    SaidAll(l, l.ring.batch + l.ring.cq, r)
  }

  function PostedBy(l: Ledger, a: Action, r: Reader): seq<Sub.Completion> {
    if a.DoPost? then Said(l, a.c, r) else []
  }

  /** Everything the kernel posted for the reader along a run, in the order of posting. */
  ghost function Posted(l: Ledger, run: seq<Action>, r: Reader): seq<Sub.Completion>
    decreases |run|
  {
    if run == [] || !Enabled(l, run[0]) || !Apply(l, run[0]).Done? then []
    else PostedBy(l, run[0], r) + Posted(Apply(l, run[0]).value, run[1..], r)
  }

  // ----- Sequences ------------------------------------------------------------------------------------------

  lemma {:induction false} SaidConcat(l: Ledger, q: seq<S.Cqe>, more: seq<S.Cqe>, r: Reader)
    ensures SaidAll(l, q + more, r) == SaidAll(l, q, r) + SaidAll(l, more, r)
  {
    hide Said;
    if q == [] {
      assert q + more == more;
    } else {
      assert (q + more)[1..] == q[1..] + more;
      SaidConcat(l, q[1..], more, r);
    }
  }

  lemma {:induction false} SaidFrame(l: Ledger, m: Ledger, q: seq<S.Cqe>, r: Reader)
    requires forall i | 0 <= i < |q| :: Said(m, q[i], r) == Said(l, q[i], r)
    ensures SaidAll(m, q, r) == SaidAll(l, q, r)
  {
    hide Said;
    if q != [] {
      assert forall i | 0 <= i < |q[1..]| :: q[1..][i] == q[i + 1];
      SaidFrame(l, m, q[1..], r);
    }
  }

  lemma SaidOne(l: Ledger, c: S.Cqe, r: Reader)
    ensures SaidAll(l, [c], r) == Said(l, c, r)
  {
    hide Said;
    assert SaidAll(l, [c][1..], r) == [];
  }

  lemma {:induction false} OutcomesPush(fs: seq<Finish>, f: Finish, op: Op)
    ensures Outcomes(fs + [f], op) == Outcomes(fs, op) + Outcomes([f], op)
  {
    if fs == [] {
      assert fs + [f] == [f];
    } else {
      assert (fs + [f])[1..] == fs[1..] + [f];
      OutcomesPush(fs[1..], f, op);
    }
  }

  lemma OutcomesOne(f: Finish, op: Op)
    ensures Outcomes([f], op) ==
            if f.op == op && f.outcome.Completed? then [Sub.Completion(0, 0, f.outcome.result, false)] else []
  {
    assert Outcomes([f][1..], op) == [];
  }

  // ----- A CQE says the same as long as it waits --------------------------------------------------------------

  /** The box of a waiting CQE exists, and the target of a cancellation box too. */
  predicate Grounded(l: Ledger, p: Addr) {
    && Boxed(l, p)
    && (p in l.raw.contexts && l.raw.contexts[p].kind == Cancel ==>
          l.raw.contexts[p].target.Some? && l.raw.contexts[p].target.value in l.raw.contexts
          && l.raw.contexts[l.raw.contexts[p].target.value].kind == Original)
  }

  lemma WaitingBoxed(l: Ledger, i: nat)
    requires Core(l) && i < |l.ring.batch + l.ring.cq|
    ensures Boxed(l, (l.ring.batch + l.ring.cq)[i].userData)
  {
    hide Shaped;
    hide P.Inv;
    hide SqOk;
    hide KernelOk;
    var s := SlotsOf(l.ring, Boxes(l));
    assert s.pending == l.ring.batch + l.ring.cq;
    assert s.pending[i].userData in s.phase;
    assert s.pending[i].userData in Boxes(l);
  }

  lemma TargetsStand(l: Ledger, p: Addr)
    requires Core(l) && Boxed(l, p)
    ensures Grounded(l, p)
  {
    hide Ringed;
    hide OwnedPairs;
    var s := RawPairs(l.raw);
    assert RawShape(l.raw.contexts, l.subs.Keys);
    if p in l.raw.contexts && l.raw.contexts[p].kind == Cancel {
      assert p in s.cancels;
      assert s.cancels[p] in s.originals;
    }
  }

  lemma SaidStays(l: Ledger, m: Ledger, c: S.Cqe, r: Reader)
    requires Shaped(l) && Shaped(m) && D.Continues(l, m) && Grounded(l, c.userData) && Grounded(m, c.userData)
    ensures Said(m, c, r) == Said(l, c, r)
  {
    var p := c.userData;
    if p in m.raw.contexts && m.raw.contexts[p].kind == Cancel {
      var t := m.raw.contexts[p].target.value;
      assert l.raw.contexts[p].target == Some(t) && Boxed(l, t);
    }
  }

  lemma CoreShaped(l: Ledger)
    requires Core(l)
    ensures Shaped(l)
  {
    hide Shaped;
    hide Ringed;
  }

  /** Whatever waits in both states says the same in both. */
  lemma AllSaidStays(l: Ledger, a: Action, q: seq<S.Cqe>, r: Reader)
    requires Core(l) && Enabled(l, a) && Apply(l, a).Done? && Core(Apply(l, a).value)
    requires forall i | 0 <= i < |q| :: Boxed(l, q[i].userData) && Boxed(Apply(l, a).value, q[i].userData)
    ensures SaidAll(Apply(l, a).value, q, r) == SaidAll(l, q, r)
  {
    hide Core;
    hide Shaped;
    hide Enabled;
    hide Apply;
    hide Said;
    hide Boxed;
    hide Grounded;
    var m := Apply(l, a).value;
    D.AllContinue(l, a);
    hide D.Continues;
    CoreShaped(l);
    CoreShaped(m);
    forall i | 0 <= i < |q|
      ensures Said(m, q[i], r) == Said(l, q[i], r)
    {
      TargetsStand(l, q[i].userData);
      TargetsStand(m, q[i].userData);
      SaidStays(l, m, q[i], r);
    }
    SaidFrame(l, m, q, r);
  }

  // ----- Steps that dispatch nothing -----------------------------------------------------------------------------

  lemma QueuesBySub(l: Ledger, a: Action)
    requires Enabled(l, a) && Apply(l, a).Done? && !a.DoDispatch? && TouchesSubs(a)
    ensures var m := Apply(l, a).value; m.ring.batch + m.ring.cq == l.ring.batch + l.ring.cq
  {
  }

  lemma QueuesByRest(l: Ledger, a: Action)
    requires Enabled(l, a) && Apply(l, a).Done? && !a.DoPost? && !TouchesSubs(a)
    ensures var m := Apply(l, a).value; m.ring.batch + m.ring.cq == l.ring.batch + l.ring.cq
  {
  }

  lemma QueuesSame(l: Ledger, a: Action)
    requires Enabled(l, a) && Apply(l, a).Done? && !a.DoDispatch? && !a.DoPost?
    ensures var m := Apply(l, a).value; m.ring.batch + m.ring.cq == l.ring.batch + l.ring.cq
  {
    hide Enabled;
    hide Apply;
    if TouchesSubs(a) {
      QueuesBySub(l, a);
    } else {
      QueuesByRest(l, a);
    }
  }

  lemma ArrivedByHandle(l: Ledger, a: Action, sub: SubId)
    requires Enabled(l, a) && Apply(l, a).Done? && OfHandles(a)
    ensures var m := Apply(l, a).value;
            && Received(m, StreamOf(sub)) == Received(l, StreamOf(sub))
            && Received(m, CancelsOf(sub)) == Received(l, CancelsOf(sub))
  {
  }

  lemma ArrivedByRing(l: Ledger, a: Action, sub: SubId)
    requires Enabled(l, a) && Apply(l, a).Done? && (a.DoAccept? || a.DoQueueCancel?)
    ensures var m := Apply(l, a).value;
            && Received(m, StreamOf(sub)) == Received(l, StreamOf(sub))
            && Received(m, CancelsOf(sub)) == Received(l, CancelsOf(sub))
  {
    hide AcceptFront;
  }

  lemma ArrivedBySub(l: Ledger, a: Action, sub: SubId)
    requires Enabled(l, a) && Apply(l, a).Done? && !a.DoDispatch? && TouchesSubs(a) && !OfHandles(a)
    requires !a.DoAccept? && !a.DoQueueCancel?
    ensures var m := Apply(l, a).value;
            && Received(m, StreamOf(sub)) == Received(l, StreamOf(sub))
            && Received(m, CancelsOf(sub)) == Received(l, CancelsOf(sub))
  {
  }

  lemma OutcomesKept(l: Ledger, a: Action)
    requires Enabled(l, a) && Apply(l, a).Done? && !a.DoDispatch? && !a.DoPopOwned?
    ensures var m := Apply(l, a).value; m.ops.finished + m.ops.held == l.ops.finished + l.ops.held
  {
  }

  lemma OutcomesOfPop(l: Ledger, op: Op)
    requires CanPopOwned(l)
    ensures Outcomes(PopOwned(l).ops.finished + PopOwned(l).ops.held, op) == Outcomes(l.ops.finished + l.ops.held, op)
  {
    var m := PopOwned(l);
    if m.ops.held != l.ops.held {
      var f := m.ops.held[|l.ops.held|];
      assert m.ops.finished + m.ops.held == (l.ops.finished + l.ops.held) + [f];
      OutcomesPush(l.ops.finished + l.ops.held, f, op);
      OutcomesOne(f, op);
    }
  }

  lemma ReceivedSame(l: Ledger, a: Action, r: Reader)
    requires Enabled(l, a) && Apply(l, a).Done? && !a.DoDispatch?
    ensures Received(Apply(l, a).value, r) == Received(l, r)
  {
    if r.HandlerOf? {
      hide Enabled;
      hide Apply;
      if a.DoPopOwned? {
        PopIs(l);
        OutcomesOfPop(l, r.op);
      } else {
        OutcomesKept(l, a);
      }
    } else {
      hide Enabled;
      hide Apply;
      if OfHandles(a) {
        hide Received;
        ArrivedByHandle(l, a, r.sub);
      } else if a.DoAccept? || a.DoQueueCancel? {
        hide Received;
        ArrivedByRing(l, a, r.sub);
      } else if TouchesSubs(a) {
        hide Received;
        ArrivedBySub(l, a, r.sub);
      } else {
        SubsUntouched(l, a);
      }
    }
  }

  lemma PopIs(l: Ledger)
    requires Enabled(l, DoPopOwned)
    ensures CanPopOwned(l) && Apply(l, DoPopOwned) == Done(PopOwned(l))
  {
  }

  lemma WaitingAllBoxed(l: Ledger)
    requires Core(l)
    ensures forall i | 0 <= i < |l.ring.batch + l.ring.cq| :: Boxed(l, (l.ring.batch + l.ring.cq)[i].userData)
  {
    hide Core;
    hide Boxed;
    forall i | 0 <= i < |l.ring.batch + l.ring.cq|
      ensures Boxed(l, (l.ring.batch + l.ring.cq)[i].userData)
    {
      WaitingBoxed(l, i);
    }
  }

  lemma QuietStep(l: Ledger, a: Action, r: Reader)
    requires Core(l) && Enabled(l, a) && Apply(l, a).Done? && Core(Apply(l, a).value) && !a.DoDispatch? && !a.DoPost?
    ensures var m := Apply(l, a).value; Received(m, r) + OnTheWay(m, r) == Received(l, r) + OnTheWay(l, r)
  {
    hide Core;
    hide Enabled;
    hide Apply;
    hide Boxed;
    hide Received;
    QueuesSame(l, a);
    ReceivedSame(l, a, r);
    WaitingAllBoxed(l);
    WaitingAllBoxed(Apply(l, a).value);
    AllSaidStays(l, a, l.ring.batch + l.ring.cq, r);
  }

  lemma PostStep(l: Ledger, c: S.Cqe, r: Reader)
    requires Enabled(l, DoPost(c))
    ensures Apply(l, DoPost(c)).Done?
    ensures var m := Apply(l, DoPost(c)).value;
            Received(m, r) + OnTheWay(m, r) == Received(l, r) + OnTheWay(l, r) + Said(l, c, r)
  {
    ReceivedSame(l, DoPost(c), r);
    hide Received;
    var m := Apply(l, DoPost(c)).value;
    assert m.ring.batch + m.ring.cq == (l.ring.batch + l.ring.cq) + [c];
    SaidConcat(m, l.ring.batch + l.ring.cq, [c], r);
    SaidOne(m, c, r);
    forall d
      ensures Said(m, d, r) == Said(l, d, r)
    {
    }
    SaidFrame(l, m, l.ring.batch + l.ring.cq, r);
  }

  // ----- Dispatch ---------------------------------------------------------------------------------------------------

  lemma DispatchTakesFront(l: Ledger)
    requires l.ring.batch != [] && Dispatch(l).Done?
    ensures Dispatch(l).value.ring == Drop(l.ring)
  {
  }

  /** The front CQE reaches whom it is meant for, and nobody else. */
  lemma DispatchToStream(l: Ledger, sub: SubId)
    requires Shaped(l) && l.ring.batch != [] && Dispatch(l).Done?
    ensures Received(Dispatch(l).value, StreamOf(sub)) == Received(l, StreamOf(sub)) + Said(l, l.ring.batch[0], StreamOf(sub))
  {
    hide RetireOriginal;
    hide RetireCancel;
    hide RetireOwned;
    hide SeeOwned;
    hide Disjoint;
    hide OwnedShape;
  }

  lemma DispatchToCancels(l: Ledger, sub: SubId)
    requires Shaped(l) && A.CopiesOk(l.raw) && l.ring.batch != [] && Dispatch(l).Done? && Grounded(l, l.ring.batch[0].userData)
    ensures Received(Dispatch(l).value, CancelsOf(sub)) == Received(l, CancelsOf(sub)) + Said(l, l.ring.batch[0], CancelsOf(sub))
  {
    hide RetireOriginal;
    hide RetireCancel;
    hide RetireOwned;
    hide SeeOwned;
    hide Disjoint;
    hide OwnedShape;
  }

  lemma DispatchToHandler(l: Ledger, op: Op)
    requires Shaped(l) && l.ring.batch != [] && Dispatch(l).Done?
    ensures Received(Dispatch(l).value, HandlerOf(op)) == Received(l, HandlerOf(op)) + Said(l, l.ring.batch[0], HandlerOf(op))
  {
    hide RetireOriginal;
    hide RetireCancel;
    hide RetireOwned;
    hide SeeOwned;
    hide RawShape;
    var c := l.ring.batch[0];
    if c.userData in l.owned.contexts {
      var x := l.owned.contexts[c.userData];
      var f := Finish(x.control, Completed(c.result));
      assert l.ops.finished + (l.ops.held + [f]) == (l.ops.finished + l.ops.held) + [f];
      OutcomesPush(l.ops.finished + l.ops.held, f, op);
      OutcomesOne(f, op);
    }
  }

  lemma DispatchStep(l: Ledger, r: Reader)
    requires Inv(l) && Enabled(l, DoDispatch) && Apply(l, DoDispatch).Done? && Core(Apply(l, DoDispatch).value)
    ensures var m := Apply(l, DoDispatch).value; Received(m, r) + OnTheWay(m, r) == Received(l, r) + OnTheWay(l, r)
  {
    hide Core;
    hide Shaped;
    hide A.AllBooked;
    hide OpsOk;
    hide FlagsOk;
    hide Boxed;
    hide Said;
    hide Received;
    hide Dispatch;
    var m := Apply(l, DoDispatch).value;
    var q, rest := l.ring.batch + l.ring.cq, m.ring.batch + m.ring.cq;
    DispatchTakesFront(l);
    assert q == [q[0]] + rest && q[0] == l.ring.batch[0];
    WaitingAllBoxed(l);
    WaitingAllBoxed(m);
    assert forall i | 0 <= i < |rest| :: rest[i] == q[i + 1];
    AllSaidStays(l, DoDispatch, rest, r);
    assert q[1..] == rest;
    CoreShaped(l);
    TargetsStand(l, q[0].userData);
    hide Grounded;
    match r {
      case StreamOf(sub) => DispatchToStream(l, sub);
      case CancelsOf(sub) => DispatchToCancels(l, sub);
      case HandlerOf(op) => DispatchToHandler(l, op);
    }
  }

  // ----- Over every run -----------------------------------------------------------------------------------------------

  lemma ResultsStep(l: Ledger, a: Action, r: Reader)
    requires Inv(l) && Enabled(l, a)
    ensures Apply(l, a).Done?
    ensures var m := Apply(l, a).value;
            Received(m, r) + OnTheWay(m, r) == Received(l, r) + OnTheWay(l, r) + PostedBy(l, a, r)
  {
    hide Inv;
    hide Core;
    hide Enabled;
    hide Apply;
    hide Received;
    hide OnTheWay;
    hide Said;
    Kept(l, a);
    InvCore(l);
    InvCore(Apply(l, a).value);
    if a.DoPost? {
      PostStep(l, a.c, r);
    } else if a.DoDispatch? {
      DispatchStep(l, r);
    } else {
      QuietStep(l, a, r);
    }
  }

  lemma InvCore(l: Ledger)
    requires Inv(l)
    ensures Core(l)
  {
    hide Core;
    hide A.Booked;
    hide OpsOk;
    hide FlagsOk;
  }

  lemma {:induction false} ResultsRun(l: Ledger, run: seq<Action>, m: Ledger, r: Reader)
    requires Inv(l) && Reaches(l, run, m)
    ensures Received(m, r) + OnTheWay(m, r) == Received(l, r) + OnTheWay(l, r) + Posted(l, run, r)
    decreases |run|
  {
    hide Inv;
    hide Enabled;
    hide Apply;
    hide Received;
    hide OnTheWay;
    hide PostedBy;
    if run != [] {
      Kept(l, run[0]);
      ResultsStep(l, run[0], r);
      ResultsRun(Apply(l, run[0]).value, run[1..], m, r);
    }
  }

  /**
    What a reader has received, followed by what is on its way to it, is at every point of every run
    exactly what the kernel posted for it, in that order: no CQE is lost, doubled, misdirected or changed.
   */
  lemma ResultsAlways(cfg: Config, run: seq<Action>, l: Ledger, r: Reader)
    requires Reaches(Init(cfg), run, l)
    ensures Received(l, r) + OnTheWay(l, r) == Posted(Init(cfg), run, r)
  {
    hide Inv;
    hide Reaches;
    hide Posted;
    InitInv(cfg);
    NothingYet(cfg, r);
    hide Received;
    hide OnTheWay;
    ResultsRun(Init(cfg), run, l, r);
  }

  lemma NothingYet(cfg: Config, r: Reader)
    ensures Received(Init(cfg), r) == [] && OnTheWay(Init(cfg), r) == []
  {
  }

  /** So what a stream has handed over and buffered is a prefix of what was posted, result by result. */
  lemma StreamResults(cfg: Config, run: seq<Action>, l: Ledger, sub: SubId)
    requires Reaches(Init(cfg), run, l) && sub in l.subs
    ensures l.subs[sub].history.consumed + l.subs[sub].buffers.normal <= Posted(Init(cfg), run, StreamOf(sub))
  {
    hide Reaches;
    hide Posted;
    hide OnTheWay;
    hide Inv;
    ResultsAlways(cfg, run, l, StreamOf(sub));
    Promises.RawAlways(cfg, run, l, sub);
  }

  /** And cancellation CQEs are handed over in the order of posting, with none missing but for overflow and detach. */
  lemma CancelResults(cfg: Config, run: seq<Action>, l: Ledger, sub: SubId)
    requires Reaches(Init(cfg), run, l) && sub in l.subs
    ensures var st := l.subs[sub]; var g := st.history.cancels;
            && Sub.Subsequence(g.consumed + st.buffers.cancellations, g.arrived)
            && g.arrived <= Posted(Init(cfg), run, CancelsOf(sub))
            && (st.buffers.delivery != Sub.Detached && g.lost == 0 ==> g.consumed + st.buffers.cancellations == g.arrived)
  {
    hide Reaches;
    hide Posted;
    hide OnTheWay;
    ResultsAlways(cfg, run, l, CancelsOf(sub));
    CancelsInOrder(cfg, run, l, sub);
  }

  lemma CancelsInOrder(cfg: Config, run: seq<Action>, l: Ledger, sub: SubId)
    requires Reaches(Init(cfg), run, l) && sub in l.subs
    ensures Sub.CancelsOk(l.subs[sub].buffers, l.subs[sub].history.cancels)
    ensures var st := l.subs[sub]; var g := st.history.cancels;
            st.buffers.delivery != Sub.Detached && g.lost == 0 ==> g.consumed + st.buffers.cancellations == g.arrived
  {
    hide Reaches;
    hide Core;
    hide A.Booked;
    hide OpsOk;
    hide FlagsOk;
    Promises.Reached(cfg, run, l);
    SubOk(l, sub);
    var st := l.subs[sub];
    Sub.SubsequenceAll(st.history.cancels.consumed + st.buffers.cancellations, st.history.cancels.arrived);
  }

  /** A completed operation got the one result that the kernel posted for it. */
  lemma OwnedResults(cfg: Config, run: seq<Action>, l: Ledger, op: Op, result: int)
    requires Reaches(Init(cfg), run, l) && Finish(op, Completed(result)) in l.ops.finished
    ensures Posted(Init(cfg), run, HandlerOf(op)) == [Sub.Completion(0, 0, result, false)]
  {
    hide Reaches;
    hide Posted;
    hide Inv;
    ResultsAlways(cfg, run, l, HandlerOf(op));
    Promises.Reached(cfg, run, l);
    OneOutcome(l, op, result);
  }

  lemma {:induction false} OutcomesCounted(fs: seq<Finish>, op: Op)
    ensures |Outcomes(fs, op)| <= FinishesOf(fs, op)
  {
    if fs != [] {
      OutcomesCounted(fs[1..], op);
    }
  }

  lemma {:induction false} OutcomeThere(fs: seq<Finish>, op: Op, result: int)
    requires Finish(op, Completed(result)) in fs
    ensures Sub.Completion(0, 0, result, false) in Outcomes(fs, op) && FinishesOf(fs, op) > 0
  {
    if fs[0] != Finish(op, Completed(result)) {
      assert Finish(op, Completed(result)) in fs[1..];
      OutcomeThere(fs[1..], op, result);
    }
  }

  lemma {:induction false} FinishesConcat(fs: seq<Finish>, gs: seq<Finish>, op: Op)
    ensures FinishesOf(fs + gs, op) == FinishesOf(fs, op) + FinishesOf(gs, op)
  {
    if fs == [] {
      assert fs + gs == gs;
    } else {
      assert (fs + gs)[1..] == fs[1..] + gs;
      FinishesConcat(fs[1..], gs, op);
    }
  }

  lemma {:induction false} NothingSaid(l: Ledger, q: seq<S.Cqe>, r: Reader)
    requires forall i | 0 <= i < |q| :: Said(l, q[i], r) == []
    ensures SaidAll(l, q, r) == []
  {
    hide Said;
    if q != [] {
      assert forall i | 0 <= i < |q[1..]| :: q[1..][i] == q[i + 1];
      NothingSaid(l, q[1..], r);
    }
  }

  lemma OneOutcome(l: Ledger, op: Op, result: int)
    requires Inv(l) && Finish(op, Completed(result)) in l.ops.finished
    ensures Received(l, HandlerOf(op)) == [Sub.Completion(0, 0, result, false)] && OnTheWay(l, HandlerOf(op)) == []
  {
    hide Inv;
    OpsThere(l);
    hide OpsOk;
    hide PlacesOk;
    OutcomeThere(l.ops.finished, op, result);
    Conserved(l.ops, l.owned.contexts, op);
    assert At(l.ops, l.owned.contexts, op, IsFinished);
    assert !At(l.ops, l.owned.contexts, op, InHeld);
    assert Finish(op, Completed(result)) in l.ops.finished + l.ops.held;
    OutcomeThere(l.ops.finished + l.ops.held, op, result);
    FinishesConcat(l.ops.finished, l.ops.held, op);
    OutcomesCounted(l.ops.finished + l.ops.held, op);
    NoBox(l, op);
    hide Said;
    NothingSaid(l, l.ring.batch + l.ring.cq, HandlerOf(op));
  }

  lemma OpsThere(l: Ledger)
    requires Inv(l)
    ensures PlacesOk(l.ops, l.owned.contexts)
  {
    hide Core;
    hide A.Booked;
    hide FlagsOk;
    hide PlacesOk;
  }

  lemma FinishedUnboxed(o: Ops, oc: map<Addr, OwnedContext>, op: Op, p: Addr)
    requires PlacesOk(o, oc) && FinishesOf(o.finished, op) > 0
    ensures p in oc ==> oc[p].handler != Some(op)
  {
    hide PlacesOk;
    Conserved(o, oc, op);
    assert At(o, oc, op, IsFinished);
    assert At(o, oc, op, IsFinished) && At(o, oc, op, InBox(p)) ==> IsFinished == InBox(p);
  }

  /** The box of a waiting CQE still holds its handler, so the operation is not finished. */
  lemma NoBox(l: Ledger, op: Op)
    requires Inv(l) && FinishesOf(l.ops.finished, op) > 0
    ensures forall i | 0 <= i < |l.ring.batch + l.ring.cq| :: Said(l, (l.ring.batch + l.ring.cq)[i], HandlerOf(op)) == []
  {
    hide Inv;
    hide PlacesOk;
    hide Core;
    OpsThere(l);
    InvCore(l);
    forall i | 0 <= i < |l.ring.batch + l.ring.cq|
      ensures Said(l, (l.ring.batch + l.ring.cq)[i], HandlerOf(op)) == []
    {
      var p := (l.ring.batch + l.ring.cq)[i].userData;
      if p in l.owned.contexts && l.owned.contexts[p].control == op {
        WaitingHolds(l, i);
        FinishedUnboxed(l.ops, l.owned.contexts, op, p);
        assert false;
      }
    }
  }

  lemma WaitingHolds(l: Ledger, i: nat)
    requires Core(l) && i < |l.ring.batch + l.ring.cq|
    requires (l.ring.batch + l.ring.cq)[i].userData in l.owned.contexts
    ensures var x := l.owned.contexts[(l.ring.batch + l.ring.cq)[i].userData]; x.handler == Some(x.control)
  {
    hide P.Inv;
    hide SqOk;
    hide KernelOk;
    hide RawShape;
    var s := SlotsOf(l.ring, Boxes(l));
    var p := (l.ring.batch + l.ring.cq)[i].userData;
    assert s.pending == l.ring.batch + l.ring.cq;
    assert s.pending[i].userData in s.phase && s.phase[s.pending[i].userData] == S.Submitted;
    assert Boxes(l)[p].phase == S.Submitted;
  }
}
