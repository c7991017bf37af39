/** What every run of the io_uring driver from its start promises, whatever the order of its steps. */
module Promises {
  import opened Prelude
  import opened Ledger
  import opened Traces
  import opened Operations
  import opened Safety
  import A = Accounts
  import B = BookSteps
  import D = Delivery
  import Shape
  import P = Pairs
  import Sh = Shutdown
  import S = Slots
  import Sub = Submission

  /** No invariant abort is reachable. */
  lemma NothingAborts(cfg: Config, run: seq<Action>, l: Ledger, a: Action)
    requires Reaches(Init(cfg), run, l) && Enabled(l, a)
    ensures Apply(l, a).Done?
  {
    hide Inv;
    hide Enabled;
    hide Apply;
    InitInv(cfg);
    Runs(Init(cfg), run, l);
  }

  lemma Reached(cfg: Config, run: seq<Action>, l: Ledger)
    requires Reaches(Init(cfg), run, l)
    ensures Inv(l)
  {
    hide Inv;
    hide Reaches;
    InitInv(cfg);
    Runs(Init(cfg), run, l);
  }

  /**
    Owned operations.  Each one accepted is in exactly one place and one not accepted in none; none
    ends twice; one that failed without the kernel did so for a reason that holds; and one whose
    future has been dropped can no longer reach the kernel without a cancellation.
   */
  ghost predicate OwnedPromise(l: Ledger, op: Op) {
    var o, oc := l.ops, l.owned.contexts;
    && (op in o.accepted <==> exists w :: At(o, oc, op, w))
    && (forall v, w | At(o, oc, op, v) && At(o, oc, op, w) :: v == w)
    && FinishesOf(o.finished, op) <= 1
    && OutcomesOk(o, l.flags.shutdown, l.cfg.supported)
    && (op in o.dropped ==>
          || ((op in o.queue || op in o.pending) && op in o.flagged)
          || (exists p :: p in oc && oc[p].handler == Some(op) && oc[p].cancelQueued)
          || FinishesOf(o.held, op) > 0 || FinishesOf(o.finished, op) > 0)
  }

  lemma OwnedAlways(cfg: Config, run: seq<Action>, l: Ledger, op: Op)
    requires Reaches(Init(cfg), run, l)
    ensures OwnedPromise(l, op)
  {
    hide Reaches;
    Reached(cfg, run, l);
    OwnedShaped(l);
    hide Shape.Core;
    hide A.Booked;
    hide FlagsOk;
    hide PlacesOk;
    hide DroppedOk;
    Conserved(l.ops, l.owned.contexts, op);
    if op in l.ops.dropped {
      NeverMissed(l.ops, l.owned.contexts, l.owned.cancels, op);
    }
  }

  // ----- What may enter the kernel ----------------------------------------------------------------------------

  /** Only operations that the ring supports are in the driver's hands or in a box. */
  ghost predicate SupportedOk(l: Ledger) {
    && (l.ops.staging.Some? ==> l.ops.staging.value.opcode in l.cfg.supported)
    && (forall p | p in l.owned.contexts :: l.owned.contexts[p].control.opcode in l.cfg.supported)
  }

  /** The steps that leave the boxes of owned operations and the driver's hands alone. */
  predicate OwnedAside(a: Action) {
    !(a.DoCancelOwned? || a.DoStageOwned? || a.DoPopOwned? || a.DoPushBack? || a.DoAccept? || a.DoDispatch?)
  }

  lemma AsideBySub(l: Ledger, a: Action)
    requires Enabled(l, a) && Apply(l, a).Done? && OwnedAside(a) && TouchesSubs(a)
    ensures var m := Apply(l, a).value;
            m.cfg == l.cfg && m.owned.contexts == l.owned.contexts && m.ops.staging == l.ops.staging
  {
  }

  lemma AsideByRest(l: Ledger, a: Action)
    requires Enabled(l, a) && Apply(l, a).Done? && OwnedAside(a) && !TouchesSubs(a)
    ensures var m := Apply(l, a).value;
            m.cfg == l.cfg && m.owned.contexts == l.owned.contexts && m.ops.staging == l.ops.staging
  {
  }

  lemma SupportedAccept(l: Ledger)
    requires SupportedOk(l) && l.ring.sq != [] && Accept(l).Done?
    ensures SupportedOk(Accept(l).value)
  {
    hide AcceptFront;
    hide AcceptSubs;
  }

  lemma SupportedDispatch(l: Ledger)
    requires SupportedOk(l) && l.ring.batch != [] && Dispatch(l).Done?
    ensures SupportedOk(Dispatch(l).value)
  {
    hide RetireOriginal;
    hide RetireCancel;
    hide Drop;
    hide Sub.OnOriginal;
    hide Sub.OnCancel;
  }

  lemma RingIs(l: Ledger, a: Action)
    requires Enabled(l, a) && (a.DoAccept? || a.DoDispatch?)
    ensures a.DoAccept? ==> l.ring.sq != [] && Apply(l, a) == Accept(l)
    ensures a.DoDispatch? ==> l.ring.batch != [] && Apply(l, a) == Dispatch(l)
  {
    hide Accept;
    hide Dispatch;
  }

  lemma SupportedOwned(l: Ledger, a: Action)
    requires SupportedOk(l) && Enabled(l, a) && (a.DoCancelOwned? || a.DoStageOwned? || a.DoPopOwned? || a.DoPushBack?)
    ensures Apply(l, a).Done? && SupportedOk(Apply(l, a).value)
  {
  }

  lemma SupportedStep(l: Ledger, a: Action)
    requires SupportedOk(l) && Enabled(l, a) && Apply(l, a).Done?
    ensures SupportedOk(Apply(l, a).value)
  {
    hide Enabled;
    hide Apply;
    if a.DoAccept? || a.DoDispatch? {
      hide Accept;
      hide Dispatch;
      RingIs(l, a);
      if a.DoAccept? {
        SupportedAccept(l);
      } else {
        SupportedDispatch(l);
      }
    } else if OwnedAside(a) {
      if TouchesSubs(a) {
        AsideBySub(l, a);
      } else {
        AsideByRest(l, a);
      }
    } else {
      SupportedOwned(l, a);
    }
  }

  lemma {:induction false} SupportedRuns(l: Ledger, run: seq<Action>, m: Ledger)
    requires SupportedOk(l) && Reaches(l, run, m)
    ensures SupportedOk(m)
    decreases |run|
  {
    hide SupportedOk;
    hide Enabled;
    hide Apply;
    if run != [] {
      SupportedStep(l, run[0]);
      SupportedRuns(Apply(l, run[0]).value, run[1..], m);
    }
  }

  /** No operation with an unsupported opcode ever gets a box, an SQ entry or into the kernel. */
  lemma SupportedAlways(cfg: Config, run: seq<Action>, l: Ledger)
    requires Reaches(Init(cfg), run, l)
    ensures SupportedOk(l)
    ensures forall i | 0 <= i < |l.ring.sq| && l.ring.sq[i].body.Work? :: l.ring.sq[i].body.op.opcode in l.cfg.supported
    ensures forall p | p in l.ring.inflight && l.ring.inflight[p].Work? :: l.ring.inflight[p].op.opcode in l.cfg.supported
  {
    hide Reaches;
    hide Inv;
    SupportedRuns(Init(cfg), run, l);
    Reached(cfg, run, l);
    WorkBoxed(l);
  }

  /** An SQE that asks for an owned operation belongs to a box of that operation. */
  lemma WorkBoxed(l: Ledger)
    requires Inv(l)
    ensures forall i | 0 <= i < |l.ring.sq| && l.ring.sq[i].body.Work? ::
              exists p :: p in l.owned.contexts && l.owned.contexts[p].control == l.ring.sq[i].body.op
    ensures forall a | a in l.ring.inflight && l.ring.inflight[a].Work? ::
              exists p :: p in l.owned.contexts && l.owned.contexts[p].control == l.ring.inflight[a].op
  {
    hide A.Booked;
    hide OpsOk;
    hide FlagsOk;
    hide P.Inv;
    hide S.Inv;
    var boxes := Shape.Boxes(l);
    assert Shape.Ringed(l.ring, boxes);
    forall i | 0 <= i < |l.ring.sq| && l.ring.sq[i].body.Work?
      ensures exists p :: p in l.owned.contexts && l.owned.contexts[p].control == l.ring.sq[i].body.op
    {
      var p := l.ring.staged[i].p;
      assert boxes[p].body == l.ring.sq[i].body;
      assert p in l.owned.contexts;
    }
    forall a | a in l.ring.inflight && l.ring.inflight[a].Work?
      ensures exists p :: p in l.owned.contexts && l.owned.contexts[p].control == l.ring.inflight[a].op
    {
      assert boxes[a].body == l.ring.inflight[a];
      assert a in l.owned.contexts;
    }
  }

  /**
    How the operation at the front of the line leaves it: closed after shutdown, otherwise cancelled if
    its flag is set, otherwise unsupported if the ring does not support it, otherwise into the hands of
    the driver; and the line behind it stays as it was.
   */
  lemma PopExactly(l: Ledger)
    requires Enabled(l, DoPopOwned)
    ensures l.ops.pending + l.ops.queue != [] && Apply(l, DoPopOwned).Done?
    ensures var line := l.ops.pending + l.ops.queue; var op, m := line[0], Apply(l, DoPopOwned).value;
            && m.ops.pending + m.ops.queue == line[1..] && m.ops.finished == l.ops.finished && m.owned == l.owned
            && (l.flags.shutdown ==>
                  m.ops.held == l.ops.held + [Finish(op, Closed)] && m.ops.staging == None)
            && (!l.flags.shutdown && op in l.ops.flagged ==>
                  m.ops.held == l.ops.held + [Finish(op, Cancelled)] && m.ops.staging == None)
            && (!l.flags.shutdown && op !in l.ops.flagged && op.opcode !in l.cfg.supported ==>
                  m.ops.held == l.ops.held + [Finish(op, Unsupported)] && m.ops.staging == None)
            && (!l.flags.shutdown && op !in l.ops.flagged && op.opcode in l.cfg.supported ==>
                  m.ops.held == l.ops.held && m.ops.staging == Some(op))
  {
    if l.ops.pending == [] {
      assert l.ops.pending + l.ops.queue == l.ops.queue;
    } else {
      assert (l.ops.pending + l.ops.queue)[1..] == l.ops.pending[1..] + l.ops.queue;
    }
  }

  /**
    Raw submissions.  What was handed over followed by what is buffered is a prefix of the completions
    in the order of arrival, all of them while delivery is open; buffers keep their limit and overflow
    is reported at most once; nobody waits for a drain that has happened, nor for the kernel to take
    entries it has taken; the drain counters say exactly whether a box or a command is left; and success
    of admission means that the kernel took every entry.
   */
  ghost predicate RawPromise(l: Ledger, sub: SubId)
    requires sub in l.subs && sub in l.cursors
  {
    var st := l.subs[sub];
    && st.history.consumed + st.buffers.normal <= st.history.arrived
    && (st.buffers.delivery == Sub.Open ==> st.history.consumed + st.buffers.normal == st.history.arrived)
    && |st.buffers.normal| <= l.cfg.limit && |st.buffers.cancellations| <= l.cfg.limit
    && st.history.overflowReports <= 1
    && (st.waiters.drain ==> !Sub.Drained(st.counts))
    && (st.waiters.admission && st.iteratorFinished ==> st.counts.accepted < st.counts.originals)
    && (Sub.Drained(st.counts) <==> !Referenced(l.raw, sub))
    && (D.Admitted(st) ==> st.counts.accepted == |l.cursors[sub].entries|)
  }

  lemma RawPromised(l: Ledger, sub: SubId)
    requires Shape.Core(l) && A.Booked(l) && sub in l.subs
    ensures sub in l.cursors && RawPromise(l, sub)
  {
    hide Shape.Core;
    hide A.Booked;
    hide A.SubBooked;
    B.Known(l);
    SubOk(l, sub);
    D.DrainedExactly(l, sub);
    if D.Admitted(l.subs[sub]) {
      D.AdmittedAll(l, sub);
    }
  }

  lemma RawAlways(cfg: Config, run: seq<Action>, l: Ledger, sub: SubId)
    requires Reaches(Init(cfg), run, l) && sub in l.subs
    ensures sub in l.cursors && RawPromise(l, sub)
  {
    hide Reaches;
    hide RawPromise;
    hide Shape.Core;
    hide A.Booked;
    hide OpsOk;
    hide FlagsOk;
    Reached(cfg, run, l);
    RawPromised(l, sub);
  }

  /**
    Retention.  Whatever address the ring refers to is the key of exactly one of the three maps, and a
    cancellation in the SQ or in the kernel aims at an original that still waits for it and for it only.
   */
  lemma RetainedAlways(cfg: Config, run: seq<Action>, l: Ledger, p: Addr)
    requires Reaches(Init(cfg), run, l) && D.InRing(l.ring, p)
    ensures p != 0 && D.Owners(l, p) == 1
    ensures forall t | Sqe(p, AsyncCancel(t)) in l.ring.sq || (p in l.ring.inflight && l.ring.inflight[p] == AsyncCancel(t)) ::
              D.RawTarget(l.raw, p, t) || D.OwnedCancelTarget(l.owned, p, t)
    ensures p in l.ring.inflight && l.ring.inflight[p].Work? ==>
              p in l.owned.contexts && l.owned.contexts[p].handler == Some(l.ring.inflight[p].op)
  {
    Reached(cfg, run, l);
    hide Reaches;
    hide Shape.Core;
    hide A.Booked;
    hide OpsOk;
    hide FlagsOk;
    D.OneOwner(l, p);
    forall t | Sqe(p, AsyncCancel(t)) in l.ring.sq || (p in l.ring.inflight && l.ring.inflight[p] == AsyncCancel(t))
      ensures D.RawTarget(l.raw, p, t) || D.OwnedCancelTarget(l.owned, p, t)
    {
      D.CancelHasTarget(l, p, t);
    }
    if p in l.ring.inflight && l.ring.inflight[p].Work? {
      D.HandlerHeld(l, p, l.ring.inflight[p].op);
    }
  }

  /**
    Accounting.  Originals not yet accepted are the staged contexts, accepted ones not yet terminal the
    submitted contexts, cancellations not yet terminal the queued commands and the cancellation
    contexts; and the originals of the submission wait in the SQ in iterator order without a gap.
   */
  lemma CountersAlways(cfg: Config, run: seq<Action>, l: Ledger, sub: SubId)
    requires Reaches(Init(cfg), run, l) && sub in l.subs
    ensures var n := l.subs[sub].counts;
            && n.originals - n.accepted == A.Count(l.raw.contexts, A.StagedOf(sub))
            && n.accepted - n.originalTerminal == A.Count(l.raw.contexts, A.SubmittedOf(sub))
            && n.cancels - n.cancelTerminal
               == A.CommandsOf(l.raw.cancelQueue, sub) + A.Count(l.raw.contexts, A.CancelOf(sub))
            && n.accepted <= n.originals
            && A.Waiting(l.ring.staged, l.raw.contexts, sub) == Range(n.accepted, n.originals)
  {
    hide Reaches;
    hide Shape.Core;
    hide OpsOk;
    hide FlagsOk;
    hide A.Booked;
    Reached(cfg, run, l);
    B.Known(l);
    OneBook(l.raw, l.ring.staged, sub, l.subs[sub], l.cursors[sub], l.cfg.limit);
  }

  lemma OneBook(raw: RawSide, staged: seq<StagedContext>, sub: SubId, st: Sub.Submission, c: Cursor, limit: nat)
    requires A.SubBooked(raw, staged, sub, st, c, limit)
    ensures A.AccountOk(raw, sub, st.counts) && A.InOrder(staged, raw.contexts, sub, st.counts)
  {
    hide Sub.Ok;
  }

  /**
    The kernel takes the entries of every iterator in iterator order: whenever it takes an original
    next, that is the entry whose position is the number of entries it has taken, and it carries the
    user data of that entry.
   */
  lemma AcceptsInOrderAlways(cfg: Config, run: seq<Action>, l: Ledger)
    requires Reaches(Init(cfg), run, l) && l.ring.staged != [] && l.ring.staged[0].Raw?
    ensures l.ring.staged[0].p in l.raw.contexts
    ensures var x := l.raw.contexts[l.ring.staged[0].p];
            x.kind == Original ==>
              x.sub in l.subs && x.sub in l.cursors && x.index == l.subs[x.sub].counts.accepted < |l.cursors[x.sub].entries|
              && x.userData == l.cursors[x.sub].entries[x.index]
  {
    hide Reaches;
    hide Shape.Core;
    hide OpsOk;
    hide FlagsOk;
    hide A.Booked;
    Reached(cfg, run, l);
    D.AcceptsInOrder(l);
  }

  /** The verdict of the submitting future is true in every state in which it can be given. */
  lemma AdmissionAlways(cfg: Config, run: seq<Action>, l: Ledger, sub: SubId, closed: bool)
    requires Reaches(Init(cfg), run, l) && sub in l.subs
    ensures sub in l.cursors
    ensures var st, entries := l.subs[sub], l.cursors[sub].entries;
            && (D.PollAdmission(st, closed) == D.Success ==>
                  st.counts.accepted == |entries| && st.history.consumed + st.buffers.normal == st.history.arrived)
            && (D.PollAdmission(st, closed) == D.StillWaiting ==> !st.iteratorFinished || st.counts.accepted < |entries|)
            && (D.PollAdmission(st, closed) == D.Overflowed <==> st.buffers.delivery == Sub.Overflow)
            && (D.PollAdmission(st, closed) == D.RuntimeClosed <==>
                  st.buffers.delivery in {Sub.Cancelling, Sub.Detached} || (closed && st.buffers.delivery == Sub.Open))
  {
    hide Reaches;
    hide Inv;
    Reached(cfg, run, l);
    D.PollAdmissionOk(l, sub, closed);
  }

  /** The end of an open stream is the end of everything it could deliver. */
  lemma StreamEndsAlways(cfg: Config, run: seq<Action>, l: Ledger, sub: SubId)
    requires Reaches(Init(cfg), run, l) && sub in l.subs && l.subs[sub].iteratorFinished
    requires l.subs[sub].buffers.delivery == Sub.Open && Sub.PollNext(l.subs[sub]).1 == Sub.Ready(None)
    ensures sub in l.cursors && l.subs[sub].history.consumed == l.subs[sub].history.arrived
    ensures D.Complete(l.subs[sub].history.consumed, l.cursors[sub].entries)
    ensures forall p | A.OriginalOf(l.raw.contexts, p, sub) :: l.raw.contexts[p].phase == S.Terminal
  {
    hide Reaches;
    hide Inv;
    hide D.Complete;
    Reached(cfg, run, l);
    D.EndOfStream(l, sub);
  }

  /** Once the submitting future is gone, a drained submission stays drained along every continuation. */
  lemma DrainStaysAlways(cfg: Config, run: seq<Action>, l: Ledger, more: seq<Action>, l': Ledger, sub: SubId)
    requires Reaches(Init(cfg), run, l) && Reaches(l, more, l')
    requires sub in l.subs && sub in l.cursors && !l.cursors[sub].active && Sub.Drained(l.subs[sub].counts)
    ensures sub in l'.subs && Sub.Drained(l'.subs[sub].counts) && !Referenced(l'.raw, sub)
  {
    hide Reaches;
    hide Inv;
    hide Referenced;
    Reached(cfg, run, l);
    D.DrainedStable(l, more, l', sub);
  }

  /**
    A cancellation in the SQ or in the kernel never hits another operation: each step keeps its box,
    the box of its target and what both stand for, or it is the dispatch of the cancellation's CQE.
   */
  lemma CancelStaysAlways(cfg: Config, run: seq<Action>, l: Ledger, a: Action, c: Addr, t: Addr)
    requires Reaches(Init(cfg), run, l) && Enabled(l, a)
    requires Sqe(c, AsyncCancel(t)) in l.ring.sq || (c in l.ring.inflight && l.ring.inflight[c] == AsyncCancel(t))
    ensures Apply(l, a).Done? && Boxed(l, c) && Boxed(l, t)
    ensures var m := Apply(l, a).value;
            (a.DoDispatch? && l.ring.batch != [] && l.ring.batch[0].userData == c && !Boxed(m, c))
            || (Boxed(m, c) && Boxed(m, t)
                && D.IdentityOf(m, c) == D.IdentityOf(l, c) && D.IdentityOf(m, t) == D.IdentityOf(l, t))
  {
    hide Reaches;
    hide Enabled;
    hide Apply;
    hide D.IdentityOf;
    hide Shape.Core;
    hide A.Booked;
    hide OpsOk;
    hide FlagsOk;
    Reached(cfg, run, l);
    D.CancelHasTarget(l, c, t);
    D.CancelNeverStrays(l, a, c, t);
  }

  // ----- Shutdown -------------------------------------------------------------------------------------------

  /** When the shutting-down thread has worked through its lists, everything alive is being cancelled. */
  lemma SweptAlways(cfg: Config, run: seq<Action>, l: Ledger)
    requires Reaches(Init(cfg), run, l) && l.flags.shutdown && l.flags.sweepSubs == {} && l.flags.sweepOps == {}
    ensures forall p | p in l.raw.contexts && l.raw.contexts[p].kind == Original && l.raw.contexts[p].phase != S.Terminal ::
              Sh.BeingCancelled(Shape.RawPairs(l.raw), p)
    ensures forall p | p in l.owned.contexts && l.owned.contexts[p].phase != S.Terminal ::
              Sh.BeingCancelled(Shape.OwnedPairs(l.owned), p)
  {
    hide Reaches;
    hide Inv;
    hide Sh.BeingCancelled;
    Reached(cfg, run, l);
    Sh.Swept(l);
  }

  /** However a run goes on after shutdown, it holds a bounded number of progress steps. */
  lemma ShutdownBounded(cfg: Config, run: seq<Action>, l: Ledger, more: seq<Action>, l': Ledger)
    requires Reaches(Init(cfg), run, l) && l.flags.shutdown && Reaches(l, more, l')
    ensures l'.flags.shutdown && Sh.Steps(more) + Sh.Work(l') <= Sh.Work(l) + 4 * Sh.MoresIn(more)
  {
    hide Reaches;
    hide Inv;
    hide Sh.Work;
    Reached(cfg, run, l);
    Sh.Bounded(l, more, l');
  }

  /** Shutdown never gets stuck: while work is left, some step takes some of it away. */
  lemma ShutdownGoesOn(cfg: Config, run: seq<Action>, l: Ledger) returns (a: Action)
    requires Reaches(Init(cfg), run, l) && l.flags.shutdown && Sh.Work(l) > 0 && l.cfg.entries > 0
    ensures Enabled(l, a) && Sh.Progress(a) && Apply(l, a).Done? && Sh.Work(Apply(l, a).value) < Sh.Work(l)
  {
    hide Reaches;
    hide Inv;
    hide Sh.Work;
    hide Enabled;
    hide Apply;
    Reached(cfg, run, l);
    a := Sh.ProgressPossible(l);
  }

  /**
    `decide` says stop exactly when shutdown was requested and no work is left; and then, along every
    continuation, the ring, the maps and the queues stay empty, every owned operation ever accepted has
    ended exactly once, and every submission is drained.
   */
  lemma StopAlways(cfg: Config, run: seq<Action>, l: Ledger, backlog: bool, more: seq<Action>, l': Ledger)
    requires Reaches(Init(cfg), run, l) && l.ops.held == [] && Reaches(l, more, l')
    ensures Sh.Decide(l, backlog) == Sh.Stop <==> l.flags.shutdown && Sh.Work(l) == 0
    ensures Sh.Decide(l, backlog) == Sh.Stop ==>
              && Sh.Quiescent(l')
              && (forall op | op in l'.ops.accepted :: FinishesOf(l'.ops.finished, op) == 1)
              && (forall sub | sub in l'.subs :: Sub.Drained(l'.subs[sub].counts))
  {
    hide Reaches;
    hide Inv;
    hide Sh.Work;
    hide Sh.Decide;
    hide Sh.Quiescent;
    Reached(cfg, run, l);
    Sh.StopExactly(l, backlog);
    if Sh.Decide(l, backlog) == Sh.Stop {
      Sh.StopIsFinal(l, more, l');
    }
  }
}
