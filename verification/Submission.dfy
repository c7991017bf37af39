/**
  The state shared by one submitted iterator, its stream and its cancellation handle.

  The fields of the shared struct are grouped by the promise they serve.  `History` is not part of
  the program: it records every CQE routed here, every completion handed to the caller, every overflow
  error reported and how many cancellation CQEs found no room, and for the stream and for the cancellations whether a task sleeps,
  that is whether the last poll returned pending and nobody has woken it since.  No decision reads it.
 */
module Submission {
  import opened Prelude

  datatype Delivery = Open | Cancelling | Overflow | Detached

  datatype Completion = Completion(index: nat, userData: nat, result: int, more: bool)

  datatype Buffers = Buffers(
    delivery: Delivery,
    normal: seq<Completion>,
    cancellations: seq<Completion>,
    normalOverflow: bool,
    cancelOverflow: bool)

  datatype Counts = Counts(originals: nat, accepted: nat, originalTerminal: nat, cancels: nat, cancelTerminal: nat)

  datatype Waiters = Waiters(admission: bool, normal: bool, cancel: bool, drain: bool)

  datatype CancelLog = CancelLog(arrived: seq<Completion>, consumed: seq<Completion>, lost: nat)

  datatype History = History(
    arrived: seq<Completion>, consumed: seq<Completion>, overflowReports: nat, streamSleeps: bool, cancelSleeps: bool,
    cancels: CancelLog)

  datatype Submission = Submission(
    iteratorFinished: bool,
    buffers: Buffers,
    counts: Counts,
    waiters: Waiters,
    history: History)

  function New(): Submission {
    Submission(false, Buffers(Open, [], [], false, false), Counts(0, 0, 0, 0, 0),
               Waiters(false, false, false, false), History([], [], 0, false, false, CancelLog([], [], 0)))
  }

  predicate Drained(n: Counts) {
    n.originalTerminal == n.originals && n.cancelTerminal == n.cancels
  }

  // ----- The critical sections ---------------------------------------------------------------

  /** Whether this CQE is the one that first finds the original buffer full. */
  predicate Overflows(b: Buffers, limit: nat) {
    b.delivery == Open && |b.normal| >= limit && !b.normalOverflow
  }

  function BufferOriginal(b: Buffers, c: Completion, limit: nat): Buffers {
    if b.delivery != Open then b
    else if |b.normal| < limit then b.(normal := b.normal + [c])
    else if !b.normalOverflow then b.(normalOverflow := true, delivery := Overflow)
    else b
  }

  function CountOriginal(n: Counts, more: bool): Counts {
    if more then n else n.(originalTerminal := n.originalTerminal + 1)
  }

  /** Which waiters are still registered after an original CQE; the others have been woken. */
  function WakeOnOriginal(st: Submission, more: bool): Waiters {
    var n := CountOriginal(st.counts, more);
    Waiters(
      st.waiters.admission && st.iteratorFinished,
      st.waiters.normal && st.buffers.delivery != Open && (more || n.originalTerminal != n.originals),
      st.waiters.cancel,
      st.waiters.drain && (more || !Drained(n)))
  }

  /** A step that takes a waiter out to wake its task. */
  function Woken(h: History, before: Waiters, after: Waiters): History {
    h.(streamSleeps := h.streamSleeps && (before.normal ==> after.normal),
       cancelSleeps := h.cancelSleeps && (before.cancel ==> after.cancel))
  }

  /** The original-operation branch of `dispatch_raw`. */
  function OnOriginal(st: Submission, c: Completion, limit: nat): Submission {
    Submission(st.iteratorFinished, BufferOriginal(st.buffers, c, limit), CountOriginal(st.counts, c.more),
               WakeOnOriginal(st, c.more),
               Woken(st.history.(arrived := st.history.arrived + [c]), st.waiters, WakeOnOriginal(st, c.more)))
  }

  function BufferCancel(b: Buffers, c: Completion, limit: nat): Buffers {
    if b.delivery == Detached then b
    else if |b.cancellations| < limit then b.(cancellations := b.cancellations + [c])
    else b.(cancelOverflow := true)
  }

  function LogCancel(g: CancelLog, b: Buffers, c: Completion, limit: nat): CancelLog {
    g.(arrived := g.arrived + [c],
       lost := if b.delivery != Detached && |b.cancellations| >= limit then g.lost + 1 else g.lost)
  }

  function CountCancel(n: Counts): Counts {
    n.(cancelTerminal := n.cancelTerminal + 1)
  }

  function WakeOnCancel(st: Submission): Waiters {
    var n := CountCancel(st.counts);
    Waiters(
      st.waiters.admission,
      st.waiters.normal,
      st.waiters.cancel && st.buffers.delivery == Detached && n.cancelTerminal != n.cancels,
      st.waiters.drain && !Drained(n))
  }

  /** The cancellation branch of `dispatch_raw`. */
  function OnCancel(st: Submission, c: Completion, limit: nat): Submission {
    Submission(st.iteratorFinished, BufferCancel(st.buffers, c, limit), CountCancel(st.counts),
               WakeOnCancel(st),
               Woken(st.history.(cancels := LogCancel(st.history.cancels, st.buffers, c, limit)), st.waiters, WakeOnCancel(st)))
  }

  function Detach(st: Submission): Submission {
    st.(buffers := Buffers(Detached, [], [], st.buffers.normalOverflow, st.buffers.cancelOverflow),
        waiters := Waiters(st.waiters.admission, false, false, st.waiters.drain))
  }

  /** The first critical section of `request_cancel`. */
  function RequestDelivery(st: Submission, d: Delivery): Submission {
    if d == Detached then Detach(st)
    else if st.buffers.delivery == Open then st.(buffers := st.buffers.(delivery := d))
    else st
  }

  datatype Poll<+T> = Ready(value: T) | Pending

  datatype Item = Cqe(c: Completion) | BufferOverflow

  /** `NextCompletion::poll`. */
  function PollNext(st: Submission): (r: (Submission, Poll<Option<Item>>)) {
    var b := st.buffers;
    if b.normal != [] then
      (st.(buffers := b.(normal := b.normal[1..]),
           history := st.history.(consumed := st.history.consumed + [b.normal[0]], streamSleeps := false)),
       Ready(Some(Cqe(b.normal[0]))))
    else if b.normalOverflow then
      (st.(buffers := b.(normalOverflow := false),
           history := st.history.(overflowReports := st.history.overflowReports + 1, streamSleeps := false)),
       Ready(Some(BufferOverflow)))
    else if b.delivery != Open || (st.iteratorFinished && st.counts.originalTerminal == st.counts.originals) then
      (st.(history := st.history.(streamSleeps := false)), Ready(None))
    else
      (st.(waiters := st.waiters.(normal := true), history := st.history.(streamSleeps := true)), Pending)
  }

  /** `NextCancellation::poll`. */
  function PollNextCancel(st: Submission): (r: (Submission, Poll<Option<Item>>)) {
    var b := st.buffers;
    if b.cancellations != [] then
      (st.(buffers := b.(cancellations := b.cancellations[1..]),
           history := st.history.(cancelSleeps := false,
                                  cancels := st.history.cancels.(consumed := st.history.cancels.consumed + [b.cancellations[0]]))),
       Ready(Some(Cqe(b.cancellations[0]))))
    else if b.cancelOverflow then
      (st.(buffers := b.(cancelOverflow := false), history := st.history.(cancelSleeps := false)),
       Ready(Some(BufferOverflow)))
    else if st.counts.cancelTerminal == st.counts.cancels then
      (st.(history := st.history.(cancelSleeps := false)), Ready(None))
    else
      (st.(waiters := st.waiters.(cancel := true), history := st.history.(cancelSleeps := true)), Pending)
  }

  /** `WaitDrained::poll`. */
  function PollDrained(st: Submission): (r: (Submission, Poll<()>)) {
    if Drained(st.counts) then (st, Ready(())) else (st.(waiters := st.waiters.(drain := true)), Pending)
  }

  // ----- What a submission promises ---------------------------------------------------------

  /** Consumed completions followed by buffered ones are always a prefix of the arrivals. */
  ghost predicate DeliveryOk(b: Buffers, h: History, limit: nat) {
    && h.consumed + b.normal <= h.arrived
    && (b.delivery == Open ==> h.consumed + b.normal == h.arrived && !b.normalOverflow && h.overflowReports == 0)
    && |b.normal| <= limit
    && |b.cancellations| <= limit
    && h.overflowReports + (if b.normalOverflow then 1 else 0) <= 1
    && (b.delivery == Detached ==> b.normal == [] && b.cancellations == [])
  }

  /** `s` is `a` with some elements left out. */
  ghost predicate Subsequence(s: seq<Completion>, a: seq<Completion>) {
    || s == []
    || (a != []
        && ((s[|s| - 1] == a[|a| - 1] && Subsequence(s[..|s| - 1], a[..|a| - 1])) || Subsequence(s, a[..|a| - 1])))
  }

  lemma SubsequencePush(s: seq<Completion>, a: seq<Completion>, c: Completion)
    requires Subsequence(s, a)
    ensures Subsequence(s + [c], a + [c]) && Subsequence(s, a + [c])
  {
    assert (s + [c])[..|s|] == s && (a + [c])[..|a|] == a;
  }

  lemma {:induction false} SubsequenceDrop(s: seq<Completion>, a: seq<Completion>)
    requires s != [] && Subsequence(s, a)
    ensures Subsequence(s[..|s| - 1], a)
    decreases |a|
  {
    var b := a[..|a| - 1];
    assert a == b + [a[|a| - 1]];
    if Subsequence(s, b) {
      SubsequenceDrop(s, b);
    }
    SubsequencePush(s[..|s| - 1], b, a[|a| - 1]);
  }

  lemma {:induction false} SubsequencePrefix(s: seq<Completion>, n: nat, a: seq<Completion>)
    requires n <= |s| && Subsequence(s, a)
    ensures Subsequence(s[..n], a)
    decreases |s|
  {
    if n < |s| {
      SubsequenceDrop(s, a);
      assert s[..|s| - 1][..n] == s[..n];
      SubsequencePrefix(s[..|s| - 1], n, a);
    } else {
      assert s[..n] == s;
    }
  }

  /** A subsequence of full length is everything. */
  lemma {:induction false} SubsequenceAll(s: seq<Completion>, a: seq<Completion>)
    requires Subsequence(s, a)
    ensures |s| <= |a| && (|s| == |a| ==> s == a)
    decreases |a|
  {
    if s != [] {
      if s[|s| - 1] == a[|a| - 1] && Subsequence(s[..|s| - 1], a[..|a| - 1]) {
        SubsequenceAll(s[..|s| - 1], a[..|a| - 1]);
        assert s == s[..|s| - 1] + [s[|s| - 1]] && a == a[..|a| - 1] + [a[|a| - 1]];
      } else {
        SubsequenceAll(s, a[..|a| - 1]);
      }
    }
  }

  /**
    Cancellation CQEs are handed over in the order of arrival, and none is missing but those that found
    the buffer full, until the submission is detached.
   */
  ghost predicate CancelsOk(b: Buffers, g: CancelLog) {
    && Subsequence(g.consumed + b.cancellations, g.arrived)
    && (b.delivery != Detached ==> |g.consumed| + |b.cancellations| + g.lost == |g.arrived|)
  }

  /** A registered waiter has something to wait for: nobody sleeps through its own condition. */
  ghost predicate WaitersOk(st: Submission) {
    var b, n, w := st.buffers, st.counts, st.waiters;
    && (w.drain ==> !Drained(n))
    && (w.cancel ==> b.cancellations == [] && !b.cancelOverflow && n.cancelTerminal != n.cancels)
    && (w.normal && b.delivery == Open ==>
          b.normal == [] && st.iteratorFinished && n.originalTerminal != n.originals)
    && (w.admission && st.iteratorFinished ==> n.accepted != n.originals)
  }

  /** A task sleeps without a registered waiter only when the submission was detached. */
  ghost predicate SleepersOk(st: Submission) {
    && (st.history.streamSleeps && !st.waiters.normal ==> st.buffers.delivery == Detached)
    && (st.history.cancelSleeps && !st.waiters.cancel ==> st.buffers.delivery == Detached)
    && (st.waiters.normal ==> st.buffers.delivery != Detached)
  }

  ghost predicate CountsOk(n: Counts) {
    n.originalTerminal <= n.accepted <= n.originals && n.cancelTerminal <= n.cancels
  }

  /** How many of the completions that arrived were the last of their operation. */
  function Finals(cs: seq<Completion>): nat {
    if cs == [] then 0 else (if cs[0].more then 0 else 1) + Finals(cs[1..])
  }

  lemma {:induction false} FinalsPush(cs: seq<Completion>, c: Completion)
    ensures Finals(cs + [c]) == Finals(cs) + (if c.more then 0 else 1)
  {
    if cs == [] {
      assert cs + [c] == [c];
    } else {
      assert (cs + [c])[1..] == cs[1..] + [c];
      FinalsPush(cs[1..], c);
    }
  }

  ghost predicate Ok(st: Submission, limit: nat) {
    && DeliveryOk(st.buffers, st.history, limit) && WaitersOk(st) && SleepersOk(st) && CountsOk(st.counts)
    && Finals(st.history.arrived) == st.counts.originalTerminal
    && CancelsOk(st.buffers, st.history.cancels)
  }

  lemma NewOk(limit: nat)
    ensures Ok(New(), limit)
  {
  }

  lemma BufferOriginalOk(b: Buffers, h: History, c: Completion, limit: nat)
    requires DeliveryOk(b, h, limit)
    ensures DeliveryOk(BufferOriginal(b, c, limit), h.(arrived := h.arrived + [c]), limit)
  {
    if b.delivery == Open && |b.normal| < limit {
      assert h.consumed + (b.normal + [c]) == (h.consumed + b.normal) + [c];
    }
  }

  lemma OnOriginalOk(st: Submission, c: Completion, limit: nat)
    requires Ok(st, limit) && (!c.more ==> st.counts.originalTerminal < st.counts.accepted)
    ensures Ok(OnOriginal(st, c, limit), limit)
    ensures OnOriginal(st, c, limit).buffers.delivery ==
            if Overflows(st.buffers, limit) then Overflow else st.buffers.delivery
    ensures !st.iteratorFinished ==> !OnOriginal(st, c, limit).waiters.admission
    ensures OnOriginal(st, c, limit).buffers.normalOverflow == (st.buffers.normalOverflow || Overflows(st.buffers, limit))
  {
    BufferOriginalOk(st.buffers, st.history, c, limit);
    FinalsPush(st.history.arrived, c);
  }

  lemma OnCancelOk(st: Submission, c: Completion, limit: nat)
    requires Ok(st, limit) && st.counts.cancelTerminal < st.counts.cancels
    ensures Ok(OnCancel(st, c, limit), limit)
  {
    BufferCancelOk(st.buffers, st.history.cancels, c, limit);
    hide CancelsOk;
  }

  lemma BufferCancelOk(b: Buffers, g: CancelLog, c: Completion, limit: nat)
    requires CancelsOk(b, g)
    ensures CancelsOk(BufferCancel(b, c, limit), LogCancel(g, b, c, limit))
  {
    SubsequencePush(g.consumed + b.cancellations, g.arrived, c);
    assert g.consumed + (b.cancellations + [c]) == (g.consumed + b.cancellations) + [c];
  }

  lemma RequestDeliveryOk(st: Submission, d: Delivery, limit: nat)
    requires Ok(st, limit) && d != Open
    ensures Ok(RequestDelivery(st, d), limit) && RequestDelivery(st, d).buffers.delivery != Open
  {
    assert st.history.consumed + [] == st.history.consumed;
    var g, b := st.history.cancels, st.buffers;
    SubsequencePrefix(g.consumed + b.cancellations, |g.consumed|, g.arrived);
    assert (g.consumed + b.cancellations)[..|g.consumed|] == g.consumed == g.consumed + [];
  }

  /**
    The stream side.  While delivery is open, `None` means that every original operation is terminal
    and that every CQE that ever arrived was handed over; `Pending` means the waiter is registered
    and everything that arrived so far was handed over.  `None` never comes before what is buffered and
    the overflow report.
   */
  lemma PollNextOk(st: Submission, limit: nat)
    requires Ok(st, limit) && st.iteratorFinished
    ensures Ok(PollNext(st).0, limit)
    ensures PollNext(st).1 == Ready(None) && st.buffers.delivery == Open ==>
              st.counts.originalTerminal == st.counts.originals && st.history.consumed == st.history.arrived
    ensures PollNext(st).1.Pending? ==>
              PollNext(st).0.waiters.normal && st.buffers.delivery == Open && st.history.consumed == st.history.arrived
    ensures PollNext(st).1 == Ready(Some(BufferOverflow)) ==> st.history.overflowReports == 0 && st.buffers.normal == []
    ensures PollNext(st).1 == Ready(None) ==> st.buffers.normal == [] && !st.buffers.normalOverflow
  {
    var b, h := st.buffers, st.history;
    if b.normal != [] {
      assert (h.consumed + [b.normal[0]]) + b.normal[1..] == h.consumed + b.normal;
    } else {
      assert h.consumed + b.normal == h.consumed;
    }
  }

  lemma PollNextCancelOk(st: Submission, limit: nat)
    requires Ok(st, limit)
    ensures Ok(PollNextCancel(st).0, limit)
    ensures PollNextCancel(st).1 == Ready(None) ==>
              st.counts.cancelTerminal == st.counts.cancels && st.buffers.cancellations == [] && !st.buffers.cancelOverflow
    ensures PollNextCancel(st).1 == Ready(Some(BufferOverflow)) ==> st.buffers.cancellations == [] && st.buffers.cancelOverflow
  {
    var g, b := st.history.cancels, st.buffers;
    if b.cancellations != [] {
      assert (g.consumed + [b.cancellations[0]]) + b.cancellations[1..] == g.consumed + b.cancellations;
    }
  }

  lemma PollDrainedOk(st: Submission, limit: nat)
    requires Ok(st, limit)
    ensures Ok(PollDrained(st).0, limit)
    ensures PollDrained(st).1.Ready? <==> Drained(st.counts)
    ensures PollDrained(st).1.Pending? ==> PollDrained(st).0.waiters.drain
  {
  }
}
