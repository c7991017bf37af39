/**
  When a submission is closed, detached or at its end: what no later step undoes, whom a detach leaves
  asleep, and what the end of a stream proves.
 */
module Streams {
  import opened Prelude
  import opened Ledger
  import opened Traces
  import opened Safety
  import opened Promises
  import A = Accounts
  import B = BookSteps
  import Shape
  import S = Slots
  import Sub = Submission

  // ----- One step on one submission ----------------------------------------------------------------------

  /**
    Delivery that is closed stays closed, only a detach changes how it is closed, and nothing new reaches
    the stream.
   */
  predicate ClosedAlike(st: Sub.Submission, st': Sub.Submission) {
    st.buffers.delivery != Sub.Open ==>
      && st'.buffers.delivery in {st.buffers.delivery, Sub.Detached}
      && (st'.history.consumed + st'.buffers.normal == st.history.consumed + st.buffers.normal
          || (st'.buffers.delivery == Sub.Detached && st'.history.consumed == st.history.consumed && st'.buffers.normal == []))
  }

  /** A task waits for the next completion, or cancellation, and whoever makes it ready will wake it. */
  predicate StreamWaits(st: Sub.Submission) {
    st.history.streamSleeps && st.waiters.normal
  }

  predicate CancelWaits(st: Sub.Submission) {
    st.history.cancelSleeps && st.waiters.cancel
  }

  /** A task sleeps and nothing is registered to wake it. */
  predicate StreamLost(st: Sub.Submission) {
    st.history.streamSleeps && !st.waiters.normal
  }

  predicate CancelLost(st: Sub.Submission) {
    st.history.cancelSleeps && !st.waiters.cancel
  }

  /** What a step makes of a submission: `detached` tells whether it is the one that loses sleepers. */
  predicate StepOn(st: Sub.Submission, st': Sub.Submission, detached: bool) {
    && ClosedAlike(st, st')
    && (StreamWaits(st) ==> (StreamLost(st') <==> detached))
    && (CancelWaits(st) ==> (CancelLost(st') <==> detached))
  }

  lemma UntouchedOn(l: Ledger, a: Action, sub: SubId)
    requires Enabled(l, a) && Apply(l, a).Done? && !TouchesSubs(a) && sub in l.subs
    ensures sub in Apply(l, a).value.subs && StepOn(l.subs[sub], Apply(l, a).value.subs[sub], false)
  {
    hide Enabled;
    hide Apply;
    SubsUntouched(l, a);
  }

  lemma OriginalOn(st: Sub.Submission, c: Sub.Completion, limit: nat)
    ensures StepOn(st, Sub.OnOriginal(st, c, limit), false)
  {
  }

  lemma CancelOn(st: Sub.Submission, c: Sub.Completion, limit: nat)
    ensures StepOn(st, Sub.OnCancel(st, c, limit), false)
  {
  }

  lemma DispatchOn(l: Ledger, a: Action, sub: SubId)
    requires Enabled(l, a) && Apply(l, a).Done? && a.DoDispatch? && sub in l.subs
    ensures sub in Apply(l, a).value.subs && StepOn(l.subs[sub], Apply(l, a).value.subs[sub], false)
  {
    hide RetireOriginal;
    hide RetireCancel;
    hide RetireOwned;
    hide SeeOwned;
    hide Drop;
    hide Sub.OnOriginal;
    hide Sub.OnCancel;
    var c := l.ring.batch[0];
    if c.userData in l.raw.contexts && l.raw.contexts[c.userData].sub in l.subs {
      var x := l.raw.contexts[c.userData];
      OriginalOn(l.subs[x.sub], Delivered(x, c), l.cfg.limit);
      CancelOn(l.subs[x.sub], Delivered(x, c), l.cfg.limit);
    }
  }

  lemma AcceptOn(l: Ledger, a: Action, sub: SubId)
    requires Enabled(l, a) && Apply(l, a).Done? && a.DoAccept? && sub in l.subs
    ensures sub in Apply(l, a).value.subs && StepOn(l.subs[sub], Apply(l, a).value.subs[sub], false)
  {
    hide AcceptFront;
  }

  lemma HandlesOn(l: Ledger, a: Action, sub: SubId)
    requires Enabled(l, a) && Apply(l, a).Done? && OfHandles(a) && sub in l.subs
    ensures sub in Apply(l, a).value.subs
    ensures StepOn(l.subs[sub], Apply(l, a).value.subs[sub], a == DoRequestDelivery(sub, Sub.Detached))
  {
  }

  lemma SubOn(l: Ledger, a: Action, sub: SubId)
    requires Enabled(l, a) && Apply(l, a).Done? && TouchesSubs(a) && !a.DoAccept? && !a.DoDispatch? && sub in l.subs
    requires !OfHandles(a)
    ensures sub in Apply(l, a).value.subs
    ensures StepOn(l.subs[sub], Apply(l, a).value.subs[sub], a == DoRequestDelivery(sub, Sub.Detached))
  {
  }

  lemma AnyOn(l: Ledger, a: Action, sub: SubId)
    requires Enabled(l, a) && Apply(l, a).Done? && sub in l.subs
    ensures sub in Apply(l, a).value.subs
    ensures StepOn(l.subs[sub], Apply(l, a).value.subs[sub], a == DoRequestDelivery(sub, Sub.Detached))
  {
    hide Enabled;
    hide Apply;
    hide StepOn;
    if a.DoAccept? {
      AcceptOn(l, a, sub);
    } else if a.DoDispatch? {
      DispatchOn(l, a, sub);
    } else if OfHandles(a) {
      HandlesOn(l, a, sub);
    } else if TouchesSubs(a) {
      SubOn(l, a, sub);
    } else {
      UntouchedOn(l, a, sub);
    }
  }

  // ----- Closing --------------------------------------------------------------------------------------------

  lemma {:induction false} ClosedRuns(l: Ledger, more: seq<Action>, m: Ledger, sub: SubId)
    requires Reaches(l, more, m) && sub in l.subs && l.subs[sub].buffers.delivery != Sub.Open
    ensures sub in m.subs && m.subs[sub].buffers.delivery in {l.subs[sub].buffers.delivery, Sub.Detached}
    decreases |more|
  {
    hide Enabled;
    hide Apply;
    if more != [] {
      AnyOn(l, more[0], sub);
      ClosedRuns(Apply(l, more[0]).value, more[1..], m, sub);
    }
  }

  /**
    Closing is for good: from any state of any run, along every continuation, a submission whose
    delivery is closed keeps the way in which it is closed or is detached, and a detached one delivers
    nothing any more.
   */
  lemma ClosedStays(cfg: Config, run: seq<Action>, l: Ledger, more: seq<Action>, m: Ledger, sub: SubId)
    requires Reaches(Init(cfg), run, l) && Reaches(l, more, m)
    requires sub in l.subs && l.subs[sub].buffers.delivery != Sub.Open
    ensures sub in m.subs && m.subs[sub].buffers.delivery in {l.subs[sub].buffers.delivery, Sub.Detached}
    ensures m.subs[sub].buffers.delivery == Sub.Detached ==> m.subs[sub].buffers.normal == [] == m.subs[sub].buffers.cancellations
  {
    hide Reaches;
    hide Shape.Core;
    hide A.Booked;
    hide OpsOk;
    hide FlagsOk;
    ClosedRuns(l, more, m, sub);
    Concat(Init(cfg), run, l, more, m);
    Reached(cfg, run + more, m);
    SubOk(m, sub);
  }

  // ----- Who is left asleep ---------------------------------------------------------------------------------

  /**
    A task that waits for a completion or a cancellation loses its waker without being woken exactly
    in one step: the detach of its submission.
   */
  lemma DetachLosesExactly(cfg: Config, run: seq<Action>, l: Ledger, a: Action, sub: SubId)
    requires Reaches(Init(cfg), run, l) && Enabled(l, a) && sub in l.subs
    ensures Apply(l, a).Done? && sub in Apply(l, a).value.subs
    ensures StreamWaits(l.subs[sub]) ==>
              (StreamLost(Apply(l, a).value.subs[sub]) <==> a == DoRequestDelivery(sub, Sub.Detached))
    ensures CancelWaits(l.subs[sub]) ==>
              (CancelLost(Apply(l, a).value.subs[sub]) <==> a == DoRequestDelivery(sub, Sub.Detached))
  {
    hide Reaches;
    hide Enabled;
    hide Apply;
    NothingAborts(cfg, run, l, a);
    AnyOn(l, a, sub);
  }

  /**
    The wakeup is really lost: in every reachable state a task that sleeps unregistered belongs to a
    detached submission, and the poll it waits for would be ready if it were the stream's.
   */
  lemma LostAlways(cfg: Config, run: seq<Action>, l: Ledger, sub: SubId)
    requires Reaches(Init(cfg), run, l) && sub in l.subs
    ensures StreamLost(l.subs[sub]) ==>
              l.subs[sub].buffers.delivery == Sub.Detached && Sub.PollNext(l.subs[sub]).1.Ready?
    ensures CancelLost(l.subs[sub]) ==> l.subs[sub].buffers.delivery == Sub.Detached
  {
    hide Reaches;
    hide Shape.Core;
    hide A.Booked;
    hide OpsOk;
    hide FlagsOk;
    Reached(cfg, run, l);
    SubOk(l, sub);
  }

  // ----- When overflow of the cancellations is reported -------------------------------------------------------

  /** The step dispatches a cancellation CQE of this submission, and the buffer has no room for it. */
  predicate FindsFull(l: Ledger, a: Action, sub: SubId) {
    && a.DoDispatch? && l.ring.batch != [] && l.ring.batch[0].userData in l.raw.contexts && sub in l.subs
    && l.raw.contexts[l.ring.batch[0].userData].kind == Cancel && l.raw.contexts[l.ring.batch[0].userData].sub == sub
    && l.subs[sub].buffers.delivery != Sub.Detached && |l.subs[sub].buffers.cancellations| == l.cfg.limit
  }

  predicate Reports(l: Ledger, a: Action, sub: SubId) {
    a == DoPollNextCancel(sub) && sub in l.subs && Sub.PollNextCancel(l.subs[sub]).1 == Sub.Ready(Some(Sub.BufferOverflow))
  }

  /** The overflow mark is set by `full`, and by nothing else, and cleared by `reported`, and by nothing else. */
  predicate MarkOn(st: Sub.Submission, st': Sub.Submission, full: bool, reported: bool) {
    st'.buffers.cancelOverflow <==> full || (st.buffers.cancelOverflow && !reported)
  }

  lemma MarkBySub(l: Ledger, a: Action, sub: SubId)
    requires Enabled(l, a) && Apply(l, a).Done? && TouchesSubs(a) && !a.DoDispatch? && sub in l.subs
    ensures sub in Apply(l, a).value.subs
    ensures MarkOn(l.subs[sub], Apply(l, a).value.subs[sub], false, Reports(l, a, sub))
  {
  }

  lemma MarkByDispatch(l: Ledger, a: Action, sub: SubId)
    requires Enabled(l, a) && Apply(l, a).Done? && a.DoDispatch? && sub in l.subs && Sub.Ok(l.subs[sub], l.cfg.limit)
    ensures sub in Apply(l, a).value.subs
    ensures MarkOn(l.subs[sub], Apply(l, a).value.subs[sub], FindsFull(l, a, sub), false)
  {
    hide RetireOriginal;
    hide RetireCancel;
    hide RetireOwned;
    hide SeeOwned;
    hide Drop;
    hide Sub.OnOriginal;
    hide Sub.OnCancel;
    var c := l.ring.batch[0];
    if c.userData in l.raw.contexts && l.raw.contexts[c.userData].sub == sub {
      MarkByCqe(l.subs[sub], Delivered(l.raw.contexts[c.userData], c), l.cfg.limit);
    }
  }

  lemma MarkByCqe(st: Sub.Submission, c: Sub.Completion, limit: nat)
    requires Sub.Ok(st, limit)
    ensures MarkOn(st, Sub.OnOriginal(st, c, limit), false, false)
    ensures MarkOn(st, Sub.OnCancel(st, c, limit),
                   st.buffers.delivery != Sub.Detached && |st.buffers.cancellations| == limit, false)
  {
  }

  /**
    The cancellation stream reports an overflow for each time its buffer was found full since the last
    report, several times together counting once: in every reachable state a step leaves the mark that
    the next poll of an empty buffer reports exactly if it found the buffer full, or the mark was there
    and the step is not its report.
   */
  lemma CancelOverflowExactly(cfg: Config, run: seq<Action>, l: Ledger, a: Action, sub: SubId)
    requires Reaches(Init(cfg), run, l) && Enabled(l, a) && sub in l.subs
    ensures Apply(l, a).Done? && sub in Apply(l, a).value.subs
    ensures MarkOn(l.subs[sub], Apply(l, a).value.subs[sub], FindsFull(l, a, sub), Reports(l, a, sub))
  {
    hide Reaches;
    hide Shape.Core;
    hide A.Booked;
    hide OpsOk;
    hide FlagsOk;
    hide Enabled;
    hide Apply;
    hide MarkOn;
    NothingAborts(cfg, run, l, a);
    Reached(cfg, run, l);
    SubOk(l, sub);
    if a.DoDispatch? {
      MarkByDispatch(l, a, sub);
    } else if TouchesSubs(a) {
      MarkBySub(l, a, sub);
    } else {
      SubsUntouched(l, a);
      MarkSame(l.subs[sub]);
    }
  }

  lemma MarkSame(st: Sub.Submission)
    ensures MarkOn(st, st, false, false)
  {
  }

  // ----- What the end of a stream proves ----------------------------------------------------------------------

  /** Some original of the submission can still complete. */
  ghost predicate Alive(raw: RawSide, sub: SubId) {
    exists p :: A.OriginalOf(raw.contexts, p, sub) && raw.contexts[p].phase != S.Terminal
  }

  lemma AliveCounted(raw: RawSide, staged: seq<StagedContext>, sub: SubId, st: Sub.Submission, c: Cursor, limit: nat)
    requires A.SubBooked(raw, staged, sub, st, c, limit)
    ensures Alive(raw, sub) <==> st.counts.originalTerminal < st.counts.originals
  {
    hide A.EntriesOk;
    hide A.FinalOk;
    hide A.InOrder;
    var rc := raw.contexts;
    if st.counts.originalTerminal < st.counts.originals {
      if A.Count(rc, A.StagedOf(sub)) > 0 {
        var p :| p in A.Members(rc, A.StagedOf(sub));
        assert A.OriginalOf(rc, p, sub);
      } else {
        var p :| p in A.Members(rc, A.SubmittedOf(sub));
        assert A.OriginalOf(rc, p, sub);
      }
    } else if Alive(raw, sub) {
      var p :| A.OriginalOf(rc, p, sub) && rc[p].phase != S.Terminal;
      A.CountZero(rc, A.StagedOf(sub));
      A.CountZero(rc, A.SubmittedOf(sub));
      assert false;
    }
  }

  /**
    When `None` can be trusted.  In every reachable state some original of the submission is alive
    exactly if fewer have ended than were staged, and an open stream answers `None` only if none is.
   */
  lemma NoneMeans(cfg: Config, run: seq<Action>, l: Ledger, sub: SubId)
    requires Reaches(Init(cfg), run, l) && sub in l.subs
    ensures Alive(l.raw, sub) <==> l.subs[sub].counts.originalTerminal < l.subs[sub].counts.originals
    ensures Sub.PollNext(l.subs[sub]).1 == Sub.Ready(None) && l.subs[sub].buffers.delivery == Sub.Open ==>
              !Alive(l.raw, sub)
  {
    hide Reaches;
    hide Inv;
    hide Alive;
    Reached(cfg, run, l);
    AliveKnown(l, sub);
  }

  lemma AliveKnown(l: Ledger, sub: SubId)
    requires Inv(l) && sub in l.subs
    ensures Alive(l.raw, sub) <==> l.subs[sub].counts.originalTerminal < l.subs[sub].counts.originals
  {
    hide Alive;
    hide A.SubBooked;
    hide OpsOk;
    hide FlagsOk;
    B.Known(l);
    AliveCounted(l.raw, l.ring.staged, sub, l.subs[sub], l.cursors[sub], l.cfg.limit);
  }
}
