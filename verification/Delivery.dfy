/** What the invariant of the io_uring driver promises to the callers of one submission. */
module Delivery {
  import opened Prelude
  import opened Ledger
  import opened Shape
  import opened Accounts
  import opened Safety
  import opened Traces
  import B = BookSteps
  import S = Slots
  import P = Pairs
  import Sub = Submission

  // ----- Draining -------------------------------------------------------------------------------------

  lemma NoMembers(rc: map<Addr, RawContext>, c: Class)
    ensures Count(rc, c) == 0 <==> forall p | p in rc :: !InClass(rc[p], c)
  {
    if Count(rc, c) == 0 {
      CountZero(rc, c);
    } else {
      var p :| p in Members(rc, c);
      assert InClass(rc[p], c);
    }
  }

  /** A terminal original that is still boxed has a command or a cancellation box of its own submission. */
  lemma RetainedIsAwaited(raw: RawSide, p: Addr, subs: set<SubId>)
    requires CopiesOk(raw) && P.Inv(RawPairs(raw)) && RawShape(raw.contexts, subs)
    requires p in raw.contexts && raw.contexts[p].kind == Original && raw.contexts[p].phase == S.Terminal
    ensures (exists i :: 0 <= i < |raw.cancelQueue| && raw.cancelQueue[i].sub == raw.contexts[p].sub)
            || (exists q :: q in raw.contexts && InClass(raw.contexts[q], CancelOf(raw.contexts[p].sub)))
  {
    var s := RawPairs(raw);
    assert s.originals[p].terminal;
    assert P.Awaiting(s, p);
    if i :| 0 <= i < |s.commands| && s.commands[i] == p {
      assert Copies(raw.contexts, raw.cancelQueue[i]);
    } else {
      var c :| c in s.cancels && s.cancels[c] == p;
      assert InClass(raw.contexts[c], CancelOf(raw.contexts[p].sub));
    }
  }

  lemma CountersExact(raw: RawSide, sub: SubId, n: Sub.Counts, subs: set<SubId>)
    requires CopiesOk(raw) && P.Inv(RawPairs(raw)) && RawShape(raw.contexts, subs) && AccountOk(raw, sub, n)
    ensures Sub.Drained(n) <==> !Referenced(raw, sub)
  {
    var rc := raw.contexts;
    NoMembers(rc, StagedOf(sub));
    NoMembers(rc, SubmittedOf(sub));
    NoMembers(rc, CancelOf(sub));
    CommandsZero(raw.cancelQueue, sub);
    if Sub.Drained(n) {
      forall p | p in rc && rc[p].sub == sub
        ensures false
      {
        RetainedIsAwaited(raw, p, subs);
      }
    }
  }

  /**
    `drained` says exactly that the submission has no box and no command left, although it only
    compares counters.
   */
  lemma DrainedExactly(l: Ledger, sub: SubId)
    requires Core(l) && Booked(l) && sub in l.subs
    ensures Sub.Drained(l.subs[sub].counts) <==> !Referenced(l.raw, sub)
  {
    hide Ringed;
    hide SubBooked;
    hide CopiesOk;
    hide P.Inv;
    B.Known(l);
    OneAccount(l.raw, l.ring.staged, sub, l.subs[sub], l.cursors[sub], l.cfg.limit);
    CountersExact(l.raw, sub, l.subs[sub].counts, l.subs.Keys);
  }

  lemma OneAccount(raw: RawSide, staged: seq<StagedContext>, sub: SubId, st: Sub.Submission, c: Cursor, limit: nat)
    requires SubBooked(raw, staged, sub, st, c, limit)
    ensures AccountOk(raw, sub, st.counts)
  {
  }

  /** Only staging an original can give a submission without boxes and commands its first one. */
  lemma FirstReference(l: Ledger, a: Action, sub: SubId)
    requires Enabled(l, a) && Apply(l, a).Done? && !Referenced(l.raw, sub) && !a.DoAccept? && !a.DoDispatch?
    requires a.DoStageOriginal? ==> a.sub != sub
    ensures !Referenced(Apply(l, a).value.raw, sub)
  {
    assert a.DoQueueCancel? ==> l.raw.contexts[a.p].sub != sub;
    assert a.DoStageCancel? ==> l.raw.cancelQueue[0].sub != sub;
  }

  lemma FirstReferenceKernel(l: Ledger, a: Action, sub: SubId)
    requires Enabled(l, a) && Apply(l, a).Done? && !Referenced(l.raw, sub) && (a.DoAccept? || a.DoDispatch?)
    ensures !Referenced(Apply(l, a).value.raw, sub)
  {
    if a.DoDispatch? {
      DispatchNeeds(l);
      SameRest(l);
      hide Dispatch;
    } else {
      AcceptSame(l);
      hide Accept;
    }
  }

  lemma AcceptSame(l: Ledger)
    requires l.ring.sq != [] && Accept(l).Done?
    ensures var m := Accept(l).value; m.raw.cancelQueue == l.raw.cancelQueue && NoNewRaw(l.raw.contexts, m.raw.contexts)
  {
  }

  /** The steps that give a future a new place in its iterator. */
  predicate MovesCursor(a: Action) {
    a.DoRegister? || a.DoYield? || a.DoStageOriginal? || a.DoCloseCursor?
  }

  lemma KernelKeepsCursors(l: Ledger)
    ensures l.ring.sq != [] && Accept(l).Done? ==>
              Accept(l).value.cursors == l.cursors && l.subs.Keys <= Accept(l).value.subs.Keys
    ensures l.ring.batch != [] && Dispatch(l).Done? ==>
              Dispatch(l).value.cursors == l.cursors && l.subs.Keys <= Dispatch(l).value.subs.Keys
  {
  }

  lemma OthersKeepCursors(l: Ledger, a: Action)
    requires Enabled(l, a) && Apply(l, a).Done? && !MovesCursor(a)
    ensures Apply(l, a).value.cursors == l.cursors && l.subs.Keys <= Apply(l, a).value.subs.Keys
  {
    hide Accept;
    hide Dispatch;
    KernelKeepsCursors(l);
  }

  lemma MovesOpenCursor(l: Ledger, a: Action, sub: SubId)
    requires Enabled(l, a) && MovesCursor(a) && sub in l.subs && sub in l.cursors && !l.cursors[sub].active
    ensures Apply(l, a).Done? && (a.DoStageOriginal? ==> a.sub != sub)
    ensures var m := Apply(l, a).value; sub in m.subs && sub in m.cursors && !m.cursors[sub].active
  {
  }

  lemma ClosedStays(l: Ledger, a: Action, sub: SubId)
    requires Enabled(l, a) && Apply(l, a).Done? && sub in l.subs && sub in l.cursors && !l.cursors[sub].active
    ensures var m := Apply(l, a).value; sub in m.subs && sub in m.cursors && !m.cursors[sub].active
    ensures a.DoStageOriginal? ==> a.sub != sub
  {
    hide Enabled;
    hide Apply;
    if MovesCursor(a) {
      MovesOpenCursor(l, a, sub);
    } else {
      OthersKeepCursors(l, a);
    }
  }

  /** Once the submitting future is gone, a drained submission stays drained whatever happens. */
  lemma {:induction false} DrainedStable(l: Ledger, run: seq<Action>, l': Ledger, sub: SubId)
    requires Inv(l) && Reaches(l, run, l')
    requires sub in l.subs && sub in l.cursors && !l.cursors[sub].active && Sub.Drained(l.subs[sub].counts)
    ensures sub in l'.subs && Sub.Drained(l'.subs[sub].counts) && !Referenced(l'.raw, sub)
    decreases |run|
  {
    hide Enabled;
    hide Core;
    hide Booked;
    hide OpsOk;
    hide FlagsOk;
    hide Referenced;
    DrainedExactly(l, sub);
    if run != [] {
      var a := run[0];
      Kept(l, a);
      ClosedStays(l, a, sub);
      if a.DoAccept? || a.DoDispatch? {
        FirstReferenceKernel(l, a, sub);
      } else {
        FirstReference(l, a, sub);
      }
      DrainedExactly(Apply(l, a).value, sub);
      DrainedStable(Apply(l, a).value, run[1..], l', sub);
    }
  }

  // ----- Admission --------------------------------------------------------------------------------------

  /** The condition under which `SubmitEntries` reports success. */
  predicate Admitted(st: Sub.Submission) {
    st.iteratorFinished && st.counts.accepted == st.counts.originals
  }

  /** Success means that the kernel has taken every entry of the iterator. */
  lemma AdmittedAll(l: Ledger, sub: SubId)
    requires Booked(l) && sub in l.subs && Admitted(l.subs[sub])
    ensures sub in l.cursors && l.subs[sub].counts.accepted == |l.cursors[sub].entries|
    ensures Waiting(l.ring.staged, l.raw.contexts, sub) == []
  {
    B.Known(l);
    hide AllBooked;
    assert CursorOk(l.cursors[sub], l.subs[sub]);
    assert InOrder(l.ring.staged, l.raw.contexts, sub, l.subs[sub].counts);
  }

  datatype Admission = Overflowed | RuntimeClosed | Success | StillWaiting

  /** The verdict of `SubmitEntries::poll` after `admit`; `closed` is set when the future was made too late. */
  function PollAdmission(st: Sub.Submission, closed: bool): Admission {
    if st.buffers.delivery == Sub.Overflow then Overflowed
    else if closed || st.buffers.delivery != Sub.Open then RuntimeClosed
    else if Admitted(st) then Success
    else StillWaiting
  }

  /**
    Success is reported only for a submission whose delivery is open and whose every entry the kernel
    has taken, so that nothing that arrived so far is lost to the stream; and a future that neither
    succeeds nor fails waits for an entry that is staged or still in the iterator.
   */
  lemma PollAdmissionOk(l: Ledger, sub: SubId, closed: bool)
    requires Inv(l) && sub in l.subs
    ensures sub in l.cursors
    ensures var st, entries := l.subs[sub], l.cursors[sub].entries;
            && (PollAdmission(st, closed) == Success ==>
                  st.counts.accepted == |entries| && st.history.consumed + st.buffers.normal == st.history.arrived)
            && (PollAdmission(st, closed) == StillWaiting ==> !st.iteratorFinished || st.counts.accepted < |entries|)
            && (PollAdmission(st, closed) == Overflowed <==> st.buffers.delivery == Sub.Overflow)
            && (PollAdmission(st, closed) == RuntimeClosed <==>
                  st.buffers.delivery in {Sub.Cancelling, Sub.Detached} || (closed && st.buffers.delivery == Sub.Open))
  {
    hide Core;
    hide OpsOk;
    hide FlagsOk;
    hide SubBooked;
    B.Known(l);
    SubOk(l, sub);
    if Admitted(l.subs[sub]) {
      AdmittedAll(l, sub);
    } else {
      AllIn(l.raw, l.ring.staged, sub, l.subs[sub], l.cursors[sub], l.cfg.limit);
    }
  }

  lemma AllIn(raw: RawSide, staged: seq<StagedContext>, sub: SubId, st: Sub.Submission, c: Cursor, limit: nat)
    requires SubBooked(raw, staged, sub, st, c, limit)
    ensures st.counts.accepted <= st.counts.originals <= |c.entries|
  {
  }

  /**
    The kernel takes the entries of a submission one by one in iterator order: the next one it takes
    is the entry whose position is the number already taken.
   */
  lemma AcceptsInOrder(l: Ledger)
    requires Core(l) && Booked(l) && l.ring.staged != [] && l.ring.staged[0].Raw?
    ensures l.ring.staged[0].p in l.raw.contexts
    ensures var x := l.raw.contexts[l.ring.staged[0].p];
            x.kind == Original ==>
              x.sub in l.subs && x.sub in l.cursors && x.index == l.subs[x.sub].counts.accepted < |l.cursors[x.sub].entries|
              && x.userData == l.cursors[x.sub].entries[x.index]
  {
    B.StagedAreBoxed(l);
    B.Known(l);
    var p := l.ring.staged[0].p;
    var x := l.raw.contexts[p];
    hide AllBooked;
    hide Ringed;
    if x.kind == Original {
      var n := l.subs[x.sub].counts;
      assert InOrder(l.ring.staged, l.raw.contexts, x.sub, n);
      assert Waiting(l.ring.staged, l.raw.contexts, x.sub)[0] == x.index;
      assert Range(n.accepted, n.originals)[0] == n.accepted;
      assert OriginalOf(l.raw.contexts, p, x.sub);
    }
  }

  // ----- The end of the stream ----------------------------------------------------------------------------

  /** Entry `k` is over: its last completion is in `cs`. */
  ghost predicate Ended(cs: seq<Sub.Completion>, k: nat) {
    exists i :: 0 <= i < |cs| && cs[i].index == k && !cs[i].more
  }

  /** Every entry is over, and every completion carries the user data of its own entry. */
  ghost predicate Complete(cs: seq<Sub.Completion>, entries: seq<nat>) {
    && (forall k | 0 <= k < |entries| :: Ended(cs, k))
    && (forall i | 0 <= i < |cs| :: cs[i].index < |entries| && cs[i].userData == entries[cs[i].index])
  }

  function FinalIndices(cs: seq<Sub.Completion>): set<nat> {
    set i | 0 <= i < |cs| && !cs[i].more :: cs[i].index
  }

  /** Distinct final completions end distinct entries. */
  lemma {:induction false} FinalsDistinct(cs: seq<Sub.Completion>)
    requires forall i, j | 0 <= i < j < |cs| && !cs[i].more :: cs[j].index != cs[i].index
    ensures |FinalIndices(cs)| == Sub.Finals(cs)
  {
    if cs == [] {
      assert FinalIndices(cs) == {};
    } else {
      var rest := cs[1..];
      assert forall i | 0 <= i < |rest| :: rest[i] == cs[i + 1];
      FinalsDistinct(rest);
      if cs[0].more {
        assert FinalIndices(cs) == FinalIndices(rest);
      } else {
        assert FinalIndices(cs) == FinalIndices(rest) + {cs[0].index};
      }
    }
  }

  function Below(n: nat): (s: set<nat>)
    ensures |s| == n && forall k: nat :: k in s <==> k < n
  {
    if n == 0 then {} else Below(n - 1) + {n - 1}
  }

  lemma FullSet(a: set<nat>, b: set<nat>)
    requires a <= b && |a| == |b|
    ensures a == b
  {
    assert |b - a| == |b| - |a| by {
      assert b == a + (b - a);
    }
  }

  lemma EveryEntryEnds(cs: seq<Sub.Completion>, n: nat)
    requires forall i, j | 0 <= i < j < |cs| && !cs[i].more :: cs[j].index != cs[i].index
    requires forall i | 0 <= i < |cs| :: cs[i].index < n
    requires Sub.Finals(cs) == n
    ensures forall k | 0 <= k < n :: Ended(cs, k)
  {
    FinalsDistinct(cs);
    FullSet(FinalIndices(cs), Below(n));
    forall k | 0 <= k < n
      ensures Ended(cs, k)
    {
      assert k in FinalIndices(cs);
    }
  }

  /**
    `None` from an open stream is the end: what the caller has consumed is every completion that
    ever arrived, each entry of the iterator has its final completion among them, and each of them
    carries the user data of its own entry.
   */
  lemma EndOfStream(l: Ledger, sub: SubId)
    requires Inv(l) && sub in l.subs && l.subs[sub].iteratorFinished
    requires l.subs[sub].buffers.delivery == Sub.Open && Sub.PollNext(l.subs[sub]).1 == Sub.Ready(None)
    ensures sub in l.cursors && l.subs[sub].history.consumed == l.subs[sub].history.arrived
    ensures Complete(l.subs[sub].history.consumed, l.cursors[sub].entries)
    ensures forall p | OriginalOf(l.raw.contexts, p, sub) :: l.raw.contexts[p].phase == S.Terminal
  {
    hide Core;
    hide OpsOk;
    hide FlagsOk;
    hide Booked;
    hide SubBooked;
    hide Complete;
    B.Known(l);
    EndOfOne(l.raw, l.ring.staged, sub, l.subs[sub], l.cursors[sub], l.cfg.limit);
  }

  lemma EndOfOne(raw: RawSide, staged: seq<StagedContext>, sub: SubId, st: Sub.Submission, c: Cursor, limit: nat)
    requires SubBooked(raw, staged, sub, st, c, limit) && st.iteratorFinished
    requires st.buffers.delivery == Sub.Open && Sub.PollNext(st).1 == Sub.Ready(None)
    ensures st.history.consumed == st.history.arrived && Complete(st.history.consumed, c.entries)
    ensures forall p | OriginalOf(raw.contexts, p, sub) :: raw.contexts[p].phase == S.Terminal
  {
    Sub.PollNextOk(st, limit);
    hide EntriesOk;
    hide FinalOk;
    EveryEntryEnds(st.history.arrived, |c.entries|);
    NoMembers(raw.contexts, StagedOf(sub));
    NoMembers(raw.contexts, SubmittedOf(sub));
    forall p | OriginalOf(raw.contexts, p, sub)
      ensures raw.contexts[p].phase == S.Terminal
    {
      assert !InClass(raw.contexts[p], StagedOf(sub)) && !InClass(raw.contexts[p], SubmittedOf(sub));
    }
  }

  // ----- Retention --------------------------------------------------------------------------------------

  /** An address the ring still refers to: in the SQ, in the kernel, or in a CQE not yet dispatched. */
  ghost predicate InRing(r: Ring, a: Addr) {
    || (exists i :: 0 <= i < |r.sq| && r.sq[i].userData == a)
    || a in r.inflight
    || (exists i :: 0 <= i < |r.batch + r.cq| && (r.batch + r.cq)[i].userData == a)
  }

  function Owners(l: Ledger, a: Addr): nat {
    (if a in l.raw.contexts then 1 else 0) + (if a in l.owned.contexts then 1 else 0)
    + (if a in l.owned.cancels then 1 else 0)
  }

  /** Every address the ring refers to is non-zero and the key of exactly one of the three maps. */
  lemma OneOwner(l: Ledger, a: Addr)
    requires Core(l) && InRing(l.ring, a)
    ensures a != 0 && Owners(l, a) == 1
  {
    var boxes := Boxes(l);
    var s := SlotsOf(l.ring, boxes);
    assert Ringed(l.ring, boxes) && Disjoint(l.raw.contexts, l.owned.contexts, l.owned.cancels);
    assert a in boxes by {
      if i :| 0 <= i < |l.ring.sq| && l.ring.sq[i].userData == a {
        assert Tagged(l.ring.staged[i], boxes);
      } else if i :| 0 <= i < |l.ring.batch + l.ring.cq| && (l.ring.batch + l.ring.cq)[i].userData == a {
        assert s.pending[i].userData in s.phase;
      }
    }
    assert a in s.phase;
  }

  /** An owned operation the kernel works on is boxed with its own handler. */
  lemma HandlerHeld(l: Ledger, a: Addr, op: Op)
    requires Core(l) && a in l.ring.inflight && l.ring.inflight[a] == Work(op)
    ensures a in l.owned.contexts && l.owned.contexts[a].control == op && l.owned.contexts[a].handler == Some(op)
  {
    var boxes := Boxes(l);
    assert Ringed(l.ring, boxes) && Shaped(l);
    assert SlotsOf(l.ring, boxes).phase[a] == S.Submitted;
    assert boxes[a].body == Work(op) && boxes[a].phase == S.Submitted;
  }

  lemma RawCancelTarget(raw: RawSide, a: Addr, t: Addr, subs: set<SubId>)
    requires P.Inv(RawPairs(raw)) && RawShape(raw.contexts, subs) && a in raw.contexts && raw.contexts[a].target == Some(t)
    ensures RawTarget(raw, a, t)
  {
    var s := RawPairs(raw);
    assert s.cancels[a] == t && P.Awaiting(s, t);
    assert forall b | b in raw.contexts && raw.contexts[b].target == Some(t) :: b in s.cancels && s.cancels[b] == t;
    assert forall i | 0 <= i < |raw.cancelQueue| :: raw.cancelQueue[i].target == s.commands[i];
  }

  lemma OwnedTargetKept(o: OwnedSide, a: Addr, t: Addr)
    requires P.Inv(OwnedPairs(o)) && a in o.cancels && o.cancels[a].target == t
    ensures OwnedCancelTarget(o, a, t)
  {
    var s := OwnedPairs(o);
    assert s.cancels[a] == t && P.Awaiting(s, t);
    assert forall b | b in o.cancels && o.cancels[b].target == t :: b in s.cancels && s.cancels[b] == t;
  }

  /** The box behind a cancellation SQE or an in-flight cancellation asks for the same cancellation. */
  lemma CancelBoxed(r: Ring, boxes: map<Addr, Box>, a: Addr, t: Addr)
    requires Ringed(r, boxes)
    requires (a in r.inflight && r.inflight[a] == AsyncCancel(t)) || Sqe(a, AsyncCancel(t)) in r.sq
    ensures a in boxes && boxes[a].body == AsyncCancel(t)
  {
    if Sqe(a, AsyncCancel(t)) in r.sq {
      var i :| 0 <= i < |r.sq| && r.sq[i] == Sqe(a, AsyncCancel(t));
      assert Tagged(r.staged[i], boxes);
    }
  }

  /**
    A cancellation in the SQ or in the kernel aims at an original that is still boxed, has not seen
    this cancellation's CQE, and is the target of no other cancellation.
   */
  lemma CancelHasTarget(l: Ledger, a: Addr, t: Addr)
    requires Core(l)
    requires (a in l.ring.inflight && l.ring.inflight[a] == AsyncCancel(t)) || Sqe(a, AsyncCancel(t)) in l.ring.sq
    ensures RawTarget(l.raw, a, t) || OwnedCancelTarget(l.owned, a, t)
  {
    hide P.Inv;
    hide Ringed;
    hide RawTarget;
    hide OwnedCancelTarget;
    CancelBoxed(l.ring, Boxes(l), a, t);
    if a in l.raw.contexts {
      RawCancelTarget(l.raw, a, t, l.subs.Keys);
    } else {
      OwnedTargetKept(l.owned, a, t);
    }
  }

  ghost predicate RawTarget(raw: RawSide, a: Addr, t: Addr) {
    && a in raw.contexts && raw.contexts[a].target == Some(t)
    && t in raw.contexts && raw.contexts[t].kind == Original
    && raw.contexts[t].cancelQueued && !raw.contexts[t].cancelSeen
    && (forall b | b in raw.contexts && raw.contexts[b].target == Some(t) :: b == a)
    && (forall i | 0 <= i < |raw.cancelQueue| :: raw.cancelQueue[i].target != t)
  }

  ghost predicate OwnedCancelTarget(o: OwnedSide, a: Addr, t: Addr) {
    && a in o.cancels && o.cancels[a].target == t
    && t in o.contexts && o.contexts[t].cancelQueued && !o.contexts[t].cancelSeen
    && (forall b | b in o.cancels && o.cancels[b].target == t :: b == a)
    && t !in o.cancelQueue
  }

  /** What a box stands for. */
  datatype Identity = Entry(sub: SubId, index: nat, userData: nat) | CancelOfEntry(target: Addr) | Operation(op: Op)
    | CancelOfOperation(target: Addr)

  function IdentityOf(l: Ledger, p: Addr): Identity
    requires Boxed(l, p)
  {
    if p in l.raw.contexts then
      var x := l.raw.contexts[p];
      if x.target.Some? then CancelOfEntry(x.target.value) else Entry(x.sub, x.index, x.userData)
    else if p in l.owned.contexts then Operation(l.owned.contexts[p].control)
    else CancelOfOperation(l.owned.cancels[p].target)
  }

  /** A box of `m` at an address that was boxed in `l` is the same box as far as the caller can tell. */
  ghost predicate Continues(l: Ledger, m: Ledger) {
    && (forall p | p in m.raw.contexts && Boxed(l, p) :: p in l.raw.contexts && SameRaw(l.raw.contexts[p], m.raw.contexts[p]))
    && (forall p | p in m.owned.contexts && Boxed(l, p) ::
          p in l.owned.contexts && m.owned.contexts[p].control == l.owned.contexts[p].control)
    && (forall p | p in m.owned.cancels && Boxed(l, p) ::
          p in l.owned.cancels && m.owned.cancels[p].target == l.owned.cancels[p].target)
  }

  predicate SameRaw(x: RawContext, y: RawContext) {
    y.target == x.target && y.sub == x.sub && y.index == x.index && y.userData == x.userData
  }

  lemma ContinuesRaw(l: Ledger, a: Action)
    requires Enabled(l, a) && (a.DoStageOriginal? || a.DoQueueCancel? || a.DoStageCancel?)
    ensures Apply(l, a).Done? && Continues(l, Apply(l, a).value)
  {
  }

  lemma ContinuesOwned(l: Ledger, a: Action)
    requires Enabled(l, a) && (a.DoCancelOwned? || a.DoStageOwnedCancel? || a.DoStageOwned?)
    ensures Apply(l, a).Done? && Continues(l, Apply(l, a).value)
  {
  }

  lemma ContinuesAccept(l: Ledger)
    requires l.ring.sq != [] && Accept(l).Done?
    ensures Continues(l, Accept(l).value)
  {
  }

  lemma ContinuesAcceptStep(l: Ledger)
    requires Enabled(l, DoAccept) && Apply(l, DoAccept).Done?
    ensures Continues(l, Apply(l, DoAccept).value)
  {
    hide Continues;
    hide Accept;
    ContinuesAccept(l);
  }

  lemma ContinuesRawDispatch(l: Ledger)
    requires l.ring.batch != [] && Dispatch(l).Done? && l.ring.batch[0].userData in l.raw.contexts
    ensures Continues(l, Dispatch(l).value)
  {
    hide Drop;
    hide Sub.OnOriginal;
    hide Sub.OnCancel;
  }

  lemma ContinuesOwnedDispatch(l: Ledger)
    requires l.ring.batch != [] && Dispatch(l).Done? && l.ring.batch[0].userData !in l.raw.contexts
    ensures Continues(l, Dispatch(l).value)
  {
    hide Drop;
  }

  lemma ContinuesDispatch(l: Ledger)
    requires l.ring.batch != [] && Dispatch(l).Done?
    ensures Continues(l, Dispatch(l).value)
  {
    hide Continues;
    hide Dispatch;
    if l.ring.batch[0].userData in l.raw.contexts {
      ContinuesRawDispatch(l);
    } else {
      ContinuesOwnedDispatch(l);
    }
  }

  lemma ContinuesDispatchStep(l: Ledger)
    requires Enabled(l, DoDispatch) && Apply(l, DoDispatch).Done?
    ensures Continues(l, Apply(l, DoDispatch).value)
  {
    hide Continues;
    hide Dispatch;
    ContinuesDispatch(l);
  }

  /** The steps that neither make, change nor free a box. */
  predicate Boxless(a: Action) {
    !(a.DoStageOriginal? || a.DoQueueCancel? || a.DoStageCancel? || a.DoCancelOwned? || a.DoStageOwnedCancel?
      || a.DoStageOwned? || a.DoAccept? || a.DoDispatch?)
  }

  lemma BoxlessSame(l: Ledger, a: Action)
    requires Enabled(l, a) && Boxless(a)
    ensures Apply(l, a).Done? && Apply(l, a).value.raw == l.raw && Apply(l, a).value.owned == l.owned
  {
  }

  lemma AllContinue(l: Ledger, a: Action)
    requires Enabled(l, a) && Apply(l, a).Done?
    ensures Continues(l, Apply(l, a).value)
  {
    hide Enabled;
    hide Apply;
    if Boxless(a) {
      BoxlessSame(l, a);
    } else {
      hide Continues;
      match a
      case DoAccept => ContinuesAcceptStep(l);
      case DoDispatch => ContinuesDispatchStep(l);
      case DoStageOriginal(_, _) => ContinuesRaw(l, a);
      case DoQueueCancel(_) => ContinuesRaw(l, a);
      case DoStageCancel(_) => ContinuesRaw(l, a);
      case _ => ContinuesOwned(l, a);
    }
  }

  lemma ContinuesIdentity(l: Ledger, m: Ledger, p: Addr)
    requires Disjoint(l.raw.contexts, l.owned.contexts, l.owned.cancels) && Continues(l, m) && Boxed(l, p) && Boxed(m, p)
    ensures IdentityOf(m, p) == IdentityOf(l, p)
  {
  }

  /** No step turns a box into another one: an address that stays boxed stands for the same thing. */
  lemma SameIdentity(l: Ledger, a: Action, p: Addr)
    requires Core(l) && Enabled(l, a) && Apply(l, a).Done? && Boxed(l, p) && Boxed(Apply(l, a).value, p)
    ensures IdentityOf(Apply(l, a).value, p) == IdentityOf(l, p)
  {
    assert Disjoint(l.raw.contexts, l.owned.contexts, l.owned.cancels);
    hide Core;
    hide Disjoint;
    hide Enabled;
    hide Apply;
    hide Continues;
    hide IdentityOf;
    AllContinue(l, a);
    ContinuesIdentity(l, Apply(l, a).value, p);
  }

  /** A cancellation box stands for its target. */
  lemma CancelIdentities(l: Ledger, c: Addr, t: Addr)
    requires Inv(l) && (RawTarget(l.raw, c, t) || OwnedCancelTarget(l.owned, c, t))
    ensures Boxed(l, c) && Boxed(l, t) && IdentityOf(l, c) in {CancelOfEntry(t), CancelOfOperation(t)}
    ensures (c in l.raw.contexts && l.raw.contexts[c].kind == Cancel) || c in l.owned.cancels
  {
    hide Ringed;
    hide P.Inv;
    hide OpsOk;
    hide Booked;
    hide FlagsOk;
    hide OwnedShape;
  }

  /**
    Whatever happens until both CQEs are dispatched, the target of a cancellation that is in the SQ
    or in the kernel keeps standing for the operation the cancellation was made for: a step keeps
    the cancellation box, its target and the identity of both, or it dispatches the CQE of the
    cancellation itself.
   */
  lemma CancelNeverStrays(l: Ledger, a: Action, c: Addr, t: Addr)
    requires Inv(l) && Enabled(l, a)
    requires RawTarget(l.raw, c, t) || OwnedCancelTarget(l.owned, c, t)
    ensures Apply(l, a).Done?
    ensures var m := Apply(l, a).value;
            (a.DoDispatch? && l.ring.batch != [] && l.ring.batch[0].userData == c && !Boxed(m, c))
            || (Boxed(m, c) && Boxed(m, t) && IdentityOf(m, c) == IdentityOf(l, c) && IdentityOf(m, t) == IdentityOf(l, t))
  {
    hide Core;
    hide OpsOk;
    hide Booked;
    hide FlagsOk;
    hide Apply;
    hide Enabled;
    hide IdentityOf;
    Kept(l, a);
    var m := Apply(l, a).value;
    CancelIdentities(l, c, t);
    CancelBoxStays(l, a, c);
    if Boxed(m, c) {
      SameIdentity(l, a, c);
      BoxedCancelTarget(m, c, t);
      SameIdentity(l, a, t);
    }
  }

  /** Only the dispatch of a CQE frees a box. */
  lemma OnlyDispatchFrees(l: Ledger, a: Action, p: Addr)
    requires Enabled(l, a) && Apply(l, a).Done? && !a.DoDispatch? && Boxed(l, p)
    ensures Boxed(Apply(l, a).value, p)
  {
    hide Enabled;
    if Boxless(a) {
      hide Apply;
      BoxlessSame(l, a);
    }
  }

  lemma DispatchFrees(l: Ledger, c: Addr)
    requires l.ring.batch != [] && Dispatch(l).Done? && l.ring.batch[0].userData != c && Boxed(l, c)
    requires forall p | p in l.raw.contexts && l.raw.contexts[p].target.Some? :: l.raw.contexts[p].target.value != c
    requires Disjoint(l.raw.contexts, l.owned.contexts, l.owned.cancels) && c !in l.owned.contexts
    ensures Boxed(Dispatch(l).value, c)
  {
  }

  lemma NoCancelOfCancel(l: Ledger, c: Addr)
    requires RawShape(l.raw.contexts, l.subs.Keys) && P.TargetsOk(RawPairs(l.raw))
    requires c in l.raw.contexts ==> l.raw.contexts[c].kind == Cancel
    ensures forall p | p in l.raw.contexts && l.raw.contexts[p].target.Some? :: l.raw.contexts[p].target.value != c
  {
    assert forall p | p in l.raw.contexts && l.raw.contexts[p].target.Some? ::
        p in RawPairs(l.raw).cancels && P.Awaiting(RawPairs(l.raw), RawPairs(l.raw).cancels[p]);
  }

  /** The dispatch of another CQE leaves a cancellation box where it is. */
  lemma CancelOutlasts(l: Ledger, c: Addr)
    requires Core(l) && l.ring.batch != [] && Dispatch(l).Done? && l.ring.batch[0].userData != c
    requires (c in l.raw.contexts && l.raw.contexts[c].kind == Cancel) || c in l.owned.cancels
    ensures Boxed(Dispatch(l).value, c)
  {
    hide Ringed;
    hide P.TargetsOk;
    hide Dispatch;
    NoCancelOfCancel(l, c);
    DispatchFrees(l, c);
  }

  lemma CancelBoxStays(l: Ledger, a: Action, c: Addr)
    requires Core(l) && Enabled(l, a) && Apply(l, a).Done?
    requires (c in l.raw.contexts && l.raw.contexts[c].kind == Cancel) || c in l.owned.cancels
    ensures Boxed(Apply(l, a).value, c) || (a.DoDispatch? && l.ring.batch != [] && l.ring.batch[0].userData == c)
  {
    hide Core;
    hide Enabled;
    hide Apply;
    hide Dispatch;
    if a.DoDispatch? {
      DispatchIs(l);
      if l.ring.batch[0].userData != c {
        CancelOutlasts(l, c);
      }
    } else {
      OnlyDispatchFrees(l, a, c);
    }
  }

  lemma DispatchIs(l: Ledger)
    requires Enabled(l, DoDispatch)
    ensures l.ring.batch != [] && Apply(l, DoDispatch) == Dispatch(l)
  {
    hide Dispatch;
  }

  lemma BoxedCancelTarget(l: Ledger, c: Addr, t: Addr)
    requires Core(l) && Boxed(l, c)
    requires IdentityOf(l, c) == CancelOfEntry(t) || IdentityOf(l, c) == CancelOfOperation(t)
    ensures Boxed(l, t)
  {
    hide Ringed;
    if c in l.raw.contexts {
      assert RawPairs(l.raw).cancels[c] == t;
    } else {
      assert c !in l.owned.contexts;
      assert OwnedPairs(l.owned).cancels[c] == t;
    }
  }
}
