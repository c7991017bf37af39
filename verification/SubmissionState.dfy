/** The state of one submission as the object that its stream and its cancellation handle poll. */
module SubmissionState {
  import opened Prelude
  import opened Submission

  class SubmissionState {
    const limit: nat
    var iteratorFinished: bool
    var buffers: Buffers
    var counts: Counts
    var waiters: Waiters
    ghost var history: History

    ghost function St(): Submission
      reads this
    {
      Submission(iteratorFinished, buffers, counts, waiters, history)
    }

    ghost predicate Valid()
      reads this
    {
      Ok(St(), limit)
    }

    constructor (limit: nat)
      ensures Valid() && St() == New() && this.limit == limit
    {
      this.limit := limit;
      iteratorFinished, counts := false, Counts(0, 0, 0, 0, 0);
      buffers := Buffers(Open, [], [], false, false);
      waiters, history := Waiters(false, false, false, false), History([], [], 0, false, false, CancelLog([], [], 0));
      new;
      NewOk(limit);
    }

    /**
      `NextCompletion::poll`.  It hands over the oldest completion not yet handed over, or the one
      overflow report; `None` from an open stream means that every original is terminal and every
      completion was handed over, and `Pending` that the caller is registered and has them all so far.
     */
    method NextCompletion() returns (r: Poll<Option<Item>>)
      requires Valid() && iteratorFinished
      modifies this`buffers, this`waiters, this`history
      ensures Valid() && buffers.delivery == old(buffers.delivery) && history.arrived == old(history.arrived)
      ensures r.Ready? && r.value.Some? && r.value.value.Cqe? ==>
                && |old(history.consumed)| < |history.arrived|
                && r.value.value.c == history.arrived[|old(history.consumed)|]
                && history.consumed == old(history.consumed) + [r.value.value.c]
      ensures r == Ready(Some(BufferOverflow)) ==>
                && old(history.overflowReports) == 0 && history.overflowReports == 1 && buffers.delivery != Open
                && old(buffers.normal) == []
      ensures r == Ready(None) ==> old(buffers.normal) == [] && !old(buffers.normalOverflow)
      ensures r == Ready(None) && buffers.delivery == Open ==>
                counts.originalTerminal == counts.originals && history.consumed == history.arrived
      ensures r.Pending? ==> waiters.normal && buffers.delivery == Open && history.consumed == history.arrived
    {
      PollNextOk(St(), limit);
      ghost var before := St();
      if buffers.normal != [] {
        var c := buffers.normal[0];
        buffers := buffers.(normal := buffers.normal[1..]);
        history := history.(consumed := history.consumed + [c], streamSleeps := false);
        r := Ready(Some(Cqe(c)));
        assert history.arrived[..|before.history.consumed + before.buffers.normal|] == before.history.consumed + before.buffers.normal;
      } else if buffers.normalOverflow {
        buffers := buffers.(normalOverflow := false);
        history := history.(overflowReports := history.overflowReports + 1, streamSleeps := false);
        r := Ready(Some(BufferOverflow));
      } else if buffers.delivery != Open || (iteratorFinished && counts.originalTerminal == counts.originals) {
        history := history.(streamSleeps := false);
        r := Ready(None);
      } else {
        history := history.(streamSleeps := true);
        waiters := waiters.(normal := true);
        r := Pending;
      }
      assert St() == PollNext(before).0 && r == PollNext(before).1;
    }

    /** `NextCancellation::poll`: `None` means that every cancellation requested so far has completed. */
    method NextCancellation() returns (r: Poll<Option<Item>>)
      requires Valid()
      modifies this`buffers, this`waiters, this`history
      ensures Valid() && buffers.normal == old(buffers.normal) && buffers.delivery == old(buffers.delivery)
      ensures r.Ready? && r.value.Some? && r.value.value.Cqe? ==>
                && old(buffers.cancellations) == [r.value.value.c] + buffers.cancellations
                && history.cancels == old(history.cancels).(consumed := old(history.cancels.consumed) + [r.value.value.c])
      ensures r == Ready(Some(BufferOverflow)) ==>
                old(buffers.cancellations) == [] && old(buffers.cancelOverflow) && !buffers.cancelOverflow
      ensures r == Ready(None) ==>
                counts.cancelTerminal == counts.cancels && buffers.cancellations == [] && !old(buffers.cancelOverflow)
      ensures r.Pending? ==> waiters.cancel && counts.cancelTerminal < counts.cancels
    {
      PollNextCancelOk(St(), limit);
      ghost var before := St();
      history := history.(cancelSleeps := false);
      if buffers.cancellations != [] {
        var c := buffers.cancellations[0];
        buffers := buffers.(cancellations := buffers.cancellations[1..]);
        history := history.(cancels := history.cancels.(consumed := history.cancels.consumed + [c]));
        r := Ready(Some(Cqe(c)));
      } else if buffers.cancelOverflow {
        buffers := buffers.(cancelOverflow := false);
        r := Ready(Some(BufferOverflow));
      } else if counts.cancelTerminal == counts.cancels {
        r := Ready(None);
      } else {
        history := history.(cancelSleeps := true);
        waiters := waiters.(cancel := true);
        r := Pending;
      }
      assert St() == PollNextCancel(before).0;
    }

    /** `WaitDrained::poll`: ready exactly when drained, and registered otherwise. */
    method WaitDrained() returns (ready: bool)
      requires Valid()
      modifies this`waiters
      ensures Valid() && ready == Drained(counts) && (!ready ==> waiters.drain)
    {
      PollDrainedOk(St(), limit);
      ready := Drained(counts);
      if !ready {
        waiters := waiters.(drain := true);
      }
    }
  }
}
