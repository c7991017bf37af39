/**
  The io_uring driver as an object: the methods that change its data, loop by loop.

  `L()` is the abstract value of the object.  Each method returns the run of atomic steps it took, so
  that everything proved about runs of the ledger holds for the object, and says outright what it did
  to its queues.  The fields marked ghost belong to the kernel, to other threads or to the history.

  Where the program would abort, a method returns `ok == false` and leaves the object in the state in
  which the ledger's own step aborts.
 */
module Driver {
  import opened Prelude
  import opened Ledger
  import opened Traces
  import S = Slots
  import Sub = Submission

  predicate AllAre(acts: seq<Action>, n: nat, a: Action) {
    |acts| == n && forall i | 0 <= i < n :: acts[i] == a
  }

  // ----- One more step of a run ----------------------------------------------------------------------------

  lemma More(l: Ledger, acts: seq<Action>, m: Ledger, a: Action)
    requires Reaches(l, acts, m) && Enabled(m, a) && Apply(m, a).Done?
    ensures Reaches(l, acts + [a], Apply(m, a).value)
  {
    Snoc(l, acts, m, a);
  }

  lemma MoreStageCancel(l: Ledger, acts: seq<Action>, m: Ledger, p: Addr)
    requires Reaches(l, acts, m) && CanStageCancel(m, p)
    ensures Reaches(l, acts + [DoStageCancel(p)], StageCancel(m, p))
  {
    hide Reaches;
    More(l, acts, m, DoStageCancel(p));
  }

  lemma MoreStageOwnedCancel(l: Ledger, acts: seq<Action>, m: Ledger, p: Addr)
    requires Reaches(l, acts, m) && CanStageOwnedCancel(m, p)
    ensures Reaches(l, acts + [DoStageOwnedCancel(p)], StageOwnedCancel(m, p))
  {
    hide Reaches;
    More(l, acts, m, DoStageOwnedCancel(p));
  }

  lemma MorePop(l: Ledger, acts: seq<Action>, m: Ledger)
    requires Reaches(l, acts, m) && CanPopOwned(m)
    ensures Reaches(l, acts + [DoPopOwned], PopOwned(m))
  {
    hide Reaches;
    More(l, acts, m, DoPopOwned);
  }

  lemma MoreStageOwned(l: Ledger, acts: seq<Action>, m: Ledger, p: Addr)
    requires Reaches(l, acts, m) && CanStageOwned(m, p)
    ensures Reaches(l, acts + [DoStageOwned(p)], StageOwned(m, p))
  {
    hide Reaches;
    More(l, acts, m, DoStageOwned(p));
  }

  lemma MorePushBack(l: Ledger, acts: seq<Action>, m: Ledger)
    requires Reaches(l, acts, m) && m.ops.staging.Some? && !HasRoom(m)
    ensures Reaches(l, acts + [DoPushBack], PushBack(m))
  {
    hide Reaches;
    More(l, acts, m, DoPushBack);
  }

  lemma MoreAccept(l: Ledger, acts: seq<Action>, m: Ledger)
    requires Reaches(l, acts, m) && Unlocked(m) && m.ring.sq != [] && Accept(m).Done?
    ensures Reaches(l, acts + [DoAccept], Accept(m).value)
  {
    hide Reaches;
    More(l, acts, m, DoAccept);
  }

  lemma MoreYield(l: Ledger, acts: seq<Action>, m: Ledger, sub: SubId)
    requires Reaches(l, acts, m) && CanYield(m, sub)
    ensures Reaches(l, acts + [DoYield(sub)], SetCursor(m, sub, Yield(m.cursors[sub])))
  {
    hide Reaches;
    More(l, acts, m, DoYield(sub));
  }

  lemma MoreStageOriginal(l: Ledger, acts: seq<Action>, m: Ledger, sub: SubId, p: Addr)
    requires Reaches(l, acts, m) && CanStageOriginal(m, sub, p)
    ensures Reaches(l, acts + [DoStageOriginal(sub, p)], StageOriginal(m, sub, p))
  {
    hide Reaches;
    More(l, acts, m, DoStageOriginal(sub, p));
  }

  lemma MoreFinishIterator(l: Ledger, acts: seq<Action>, m: Ledger, sub: SubId)
    requires Reaches(l, acts, m) && CanFinishIterator(m, sub)
    ensures Reaches(l, acts + [DoFinishIterator(sub)], SetSub(m, sub, FinishIterator(m.subs[sub])))
  {
    hide Reaches;
    More(l, acts, m, DoFinishIterator(sub));
  }

  lemma MoreQueueCancel(l: Ledger, acts: seq<Action>, m: Ledger, p: Addr)
    requires Reaches(l, acts, m) && CanQueueCancel(m, p)
    ensures Reaches(l, acts + [DoQueueCancel(p)], QueueCancel(m, p))
  {
    hide Reaches;
    More(l, acts, m, DoQueueCancel(p));
  }

  lemma MoreDelivery(l: Ledger, acts: seq<Action>, m: Ledger, sub: SubId, d: Sub.Delivery)
    requires Reaches(l, acts, m) && HasSub(m, sub) && d != Sub.Open
    ensures Reaches(l, acts + [DoRequestDelivery(sub, d)], SetSub(m, sub, Sub.RequestDelivery(m.subs[sub], d)))
  {
    hide Reaches;
    More(l, acts, m, DoRequestDelivery(sub, d));
  }

  lemma MoreEnqueue(l: Ledger, acts: seq<Action>, m: Ledger, op: Op)
    requires Reaches(l, acts, m) && m.flags.ownedAdmission && op !in m.ops.accepted
    ensures Reaches(l, acts + [DoEnqueue(op)], Enqueue(m, op))
  {
    hide Reaches;
    More(l, acts, m, DoEnqueue(op));
  }

  lemma MoreFinish(l: Ledger, acts: seq<Action>, m: Ledger)
    requires Reaches(l, acts, m) && m.ops.held != []
    ensures Reaches(l, acts + [DoFinishHeld], FinishHeld(m))
  {
    hide Reaches;
    More(l, acts, m, DoFinishHeld);
  }

  lemma MoreDispatch(l: Ledger, acts: seq<Action>, m: Ledger)
    requires Reaches(l, acts, m) && Unlocked(m) && m.ring.batch != [] && Dispatch(m).Done?
    ensures Reaches(l, acts + [DoDispatch], Dispatch(m).value)
  {
    hide Reaches;
    More(l, acts, m, DoDispatch);
  }

  lemma MoreCancelOwned(l: Ledger, acts: seq<Action>, m: Ledger, op: Op, t: Option<Addr>, dropping: bool)
    requires Reaches(l, acts, m) && CanCancelOwned(m, op, t, dropping)
    ensures Reaches(l, acts + [DoCancelOwned(op, t, dropping)], Apply(m, DoCancelOwned(op, t, dropping)).value)
  {
    hide Reaches;
    More(l, acts, m, DoCancelOwned(op, t, dropping));
  }

  lemma AcceptShrinks(m: Ledger)
    requires m.ring.sq != [] && Accept(m).Done?
    ensures var r := Accept(m).value.ring; |r.sq| == |m.ring.sq| - 1 && r.batch == m.ring.batch && r.cq == m.ring.cq
    ensures Accept(m).value.ops == m.ops && SameStreams(m.subs, Accept(m).value.subs)
    ensures Accept(m).value.raw.cancelQueue == m.raw.cancelQueue && Accept(m).value.owned.cancelQueue == m.owned.cancelQueue
  {
  }

  /** The line in front of `stage_owned`: operations pushed back, then the producer queue. */
  function Line(o: Ops): seq<Op> {
    o.pending + o.queue
  }

  lemma PopLine(l: Ledger)
    requires l.ops.pending != [] || l.ops.queue != []
    ensures Line(l.ops) != [] && Line(PopOwned(l).ops) == Line(l.ops)[1..]
    ensures PopOwned(l).ops.staging.Some? ==> PopOwned(l).ops.staging == Some(Line(l.ops)[0])
  {
  }

  /** The completion queue and the CQEs taken from it are left alone. */
  predicate SameCq(before: Ring, after: Ring) {
    after.batch == before.batch && after.cq == before.cq
  }

  /** Submissions keep what they have buffered and how far their iterators are. */
  predicate SameStreams(before: map<SubId, Sub.Submission>, after: map<SubId, Sub.Submission>) {
    forall sub | sub in before ::
      sub in after && after[sub].buffers == before[sub].buffers && after[sub].iteratorFinished == before[sub].iteratorFinished
  }

  /** Only the submissions in `named` may have changed how they deliver. */
  predicate DeliveryNamed(before: map<SubId, Sub.Submission>, after: map<SubId, Sub.Submission>, named: seq<SubId>) {
    forall sub | sub in before ::
      sub in after && (after[sub].buffers.delivery == before[sub].buffers.delivery || sub in named)
  }

  /** No original needs a cancellation that did not need one before. */
  ghost predicate FewerTargets(before: map<Addr, RawContext>, after: map<Addr, RawContext>) {
    forall p | NeedsCancel(after, p) :: NeedsCancel(before, p) && after[p].sub == before[p].sub
  }

  /** Every original of the submission that may still complete has its cancellation requested. */
  ghost predicate ClearOf(rc: map<Addr, RawContext>, sub: SubId) {
    forall p | NeedsCancel(rc, p) :: rc[p].sub != sub
  }

  lemma StaysClear(before: map<Addr, RawContext>, after: map<Addr, RawContext>, sub: SubId)
    requires FewerTargets(before, after) && ClearOf(before, sub)
    ensures ClearOf(after, sub)
  {
  }

  lemma NothingKept(subs: map<SubId, Sub.Submission>, rc: map<Addr, RawContext>)
    ensures SameStreams(subs, subs) && FewerTargets(rc, rc)
  {
  }

  lemma QueueKeeps(subs: map<SubId, Sub.Submission>, rc: map<Addr, RawContext>, l: Ledger, p: Addr)
    requires SameStreams(subs, l.subs) && FewerTargets(rc, l.raw.contexts) && CanQueueCancel(l, p)
    ensures SameStreams(subs, QueueCancel(l, p).subs) && FewerTargets(rc, QueueCancel(l, p).raw.contexts)
    ensures QueueCancel(l, p).subs.Keys == l.subs.Keys
  {
  }

  lemma DispatchNames(m: Ledger)
    requires m.ring.batch != [] && Dispatch(m).Done?
    ensures var c := m.ring.batch[0];
            DeliveryNamed(m.subs, Dispatch(m).value.subs,
                          if c.userData in m.raw.contexts && m.raw.contexts[c.userData].kind == Original
                             && m.raw.contexts[c.userData].sub in m.subs
                             && Sub.Overflows(m.subs[m.raw.contexts[c.userData].sub].buffers, m.cfg.limit)
                          then [m.raw.contexts[c.userData].sub] else [])
  {
  }

  /** No submission is lost, and none whose delivery was closed is open again. */
  predicate OnlyCloses(before: map<SubId, Sub.Submission>, after: map<SubId, Sub.Submission>) {
    forall sub | sub in before ::
      sub in after && (before[sub].buffers.delivery != Sub.Open ==> after[sub].buffers.delivery != Sub.Open)
  }

  /** Some step of the run gives the driver something to do. */
  ghost predicate GivesWork(acts: seq<Action>) {
    exists i :: 0 <= i < |acts| && (acts[i].DoStageOriginal? || acts[i].DoQueueCancel?)
  }

  lemma DispatchDrops(m: Ledger)
    requires m.ring.batch != []
    ensures m.ring.batch[0].userData == 0 ==> Dispatch(m).Abort?
    ensures Dispatch(m).Done? ==>
              && Dispatch(m).value.ring.batch == m.ring.batch[1..]
              && Dispatch(m).value.ring.cq == m.ring.cq
              && Dispatch(m).value.ops.staging == m.ops.staging
              && m.subs.Keys <= Dispatch(m).value.subs.Keys
  {
  }

  /** What the cursor of a live future always looks like. */
  predicate CursorSane(c: Cursor) {
    c.next <= |c.entries| && (c.pending.Some? ==> c.pending.value < |c.entries|)
  }

  /** What the iterator and the item in hand still have to give. */
  function Left(c: Cursor): nat
    requires CursorSane(c)
  {
    2 * (|c.entries| - c.next) + if c.pending.Some? then 1 else 0
  }

  lemma NoSteps(l: Ledger)
    ensures Reaches(l, [], l)
  {
  }

  class IoUringDriver {
    const cfg: Config

    // under the data mutex
    var raw: RawSide
    var owned: OwnedSide
    var flags: Flags

    // the ring with the mirror of its SQ, and the owned operations by place
    var ring: Ring
    var ops: Ops

    // the shared state of every submission, and the future that feeds it
    var subs: map<SubId, Sub.Submission>
    var cursors: map<SubId, Cursor>

    ghost function L(): Ledger
      reads this
    {
      Ledger(cfg, raw, owned, ring, ops, flags, subs, cursors)
    }

    constructor (cfg: Config)
      ensures L() == Init(cfg)
    {
      this.cfg := cfg;
      raw, owned := RawSide(map[], []), OwnedSide(map[], map[], []);
      flags := Flags(true, false, true, {}, {}, {}, {});
      ring, ops := Ring([], [], map[], [], []), Ops([], [], None, [], [], {}, {}, {});
      subs, cursors := map[], map[];
    }

    /** The allocator hands out some non-zero address that no live box occupies. */
    method Allocate() returns (p: Addr)
      ensures Fresh(L(), p)
    {
      ghost var q := SomeFresh(L());
      p :| p != 0 && p !in raw.contexts && p !in owned.contexts && p !in owned.cancels;
    }

    /** `sq.push`: false if the SQ is full. */
    method PushSqe(st: StagedContext, body: Body) returns (ok: bool)
      modifies this`ring
      ensures ok == old(HasRoom(L()))
      ensures ring == if ok then Push(old(ring), st, body) else old(ring)
    {
      ok := |ring.sq| < cfg.entries;
      if ok {
        ring := ring.(sq := ring.sq + [Sqe(st.p, body)], staged := ring.staged + [st]);
      }
    }

    // ----- Staging -----------------------------------------------------------------------------------------

    /**
      `stage_cancellations`: the oldest commands get SQ slots in order, until the queue is empty or
      the SQ is full; a command that does not fit stays at the front.
     */
    method StageCancellations() returns (ghost acts: seq<Action>)
      requires Unlocked(L())
      modifies this`raw, this`ring
      ensures Reaches(old(L()), acts, L()) && forall i | 0 <= i < |acts| :: acts[i].DoStageCancel?
      ensures raw.cancelQueue == [] || !HasRoom(L())
      ensures SameCq(old(ring), ring) && |old(ring.sq)| <= |ring.sq|
    {
      hide Reaches;
      NoSteps(L());
      acts := [];
      while raw.cancelQueue != []
        invariant SameCq(old(ring), ring) && |old(ring.sq)| <= |ring.sq|
        invariant Reaches(old(L()), acts, L()) && forall i | 0 <= i < |acts| :: acts[i].DoStageCancel?
        decreases |raw.cancelQueue|
      {
        ghost var before := L();
        var command := raw.cancelQueue[0];
        raw := raw.(cancelQueue := raw.cancelQueue[1..]);
        var p := Allocate();
        if p in raw.contexts {
          assert false;
        }
        var ok := PushSqe(Raw(p), AsyncCancel(command.target));
        if !ok {
          raw := raw.(cancelQueue := [command] + raw.cancelQueue);
          assert L() == before;
          break;
        }
        raw := raw.(contexts := raw.contexts[p := RawContext(Cancel, S.Staged, command.index, command.userData, command.sub,
                                                             Some(command.target), false, false)]);
        assert L() == StageCancel(before, p);
        MoreStageCancel(old(L()), acts, before, p);
        acts := acts + [DoStageCancel(p)];
      }
    }

    /** `stage_owned_cancellations`, likewise. */
    method StageOwnedCancellations() returns (ghost acts: seq<Action>)
      requires Unlocked(L())
      modifies this`owned, this`ring
      ensures Reaches(old(L()), acts, L()) && forall i | 0 <= i < |acts| :: acts[i].DoStageOwnedCancel?
      ensures owned.cancelQueue == [] || !HasRoom(L())
      ensures SameCq(old(ring), ring) && |old(ring.sq)| <= |ring.sq|
    {
      hide Reaches;
      NoSteps(L());
      acts := [];
      while owned.cancelQueue != []
        invariant SameCq(old(ring), ring) && |old(ring.sq)| <= |ring.sq|
        invariant Reaches(old(L()), acts, L()) && forall i | 0 <= i < |acts| :: acts[i].DoStageOwnedCancel?
        decreases |owned.cancelQueue|
      {
        ghost var before := L();
        var target := owned.cancelQueue[0];
        owned := owned.(cancelQueue := owned.cancelQueue[1..]);
        var p := Allocate();
        if p in raw.contexts || p in owned.contexts || p in owned.cancels {
          assert false;
        }
        var ok := PushSqe(OwnedCancel(p), AsyncCancel(target));
        if !ok {
          owned := owned.(cancelQueue := [target] + owned.cancelQueue);
          assert L() == before;
          break;
        }
        owned := owned.(cancels := owned.cancels[p := OwnedCancelContext(S.Staged, target)]);
        assert L() == StageOwnedCancel(before, p);
        MoreStageOwnedCancel(old(L()), acts, before, p);
        acts := acts + [DoStageOwnedCancel(p)];
      }
    }

    /** An operation that leaves the line fails without being submitted in these cases and for these reasons. */
    predicate FailedAtPop(op: Op, before: seq<Finish>, after: seq<Finish>)
      reads this`flags, this`ops
    {
      after == before + if flags.shutdown then [Finish(op, Closed)]
                        else if op in ops.flagged then [Finish(op, Cancelled)]
                        else if op.opcode !in cfg.supported then [Finish(op, Unsupported)]
                        else []
    }

    /** The pop of one iteration of `stage_owned`, and the checks that fail an operation unsubmitted. */
    method TakeOwned()
      requires ops.pending != [] || ops.queue != []
      modifies this`ops
      ensures L() == PopOwned(old(L()))
      ensures FailedAtPop(old(Line(ops)[0]), old(ops.held), ops.held)
      ensures ops.staging.Some? <==> !flags.shutdown && old(Line(ops)[0]) !in ops.flagged && old(Line(ops)[0]).opcode in cfg.supported
    {
      var op;
      if ops.pending != [] {
        op := ops.pending[0];
        ops := ops.(pending := ops.pending[1..]);
      } else {
        op := ops.queue[0];
        ops := ops.(queue := ops.queue[1..]);
      }
      if flags.shutdown {
        ops := ops.(held := ops.held + [Finish(op, Closed)], staging := None);
      } else if op in ops.flagged {
        ops := ops.(held := ops.held + [Finish(op, Cancelled)], staging := None);
      } else if op.opcode !in cfg.supported {
        ops := ops.(held := ops.held + [Finish(op, Unsupported)], staging := None);
      } else {
        ops := ops.(staging := Some(op));
      }
    }

    /** The push of one iteration of `stage_owned`; an operation that does not fit returns to the front. */
    method PlaceOwned() returns (ok: bool, ghost a: Action)
      requires ops.staging.Some?
      modifies this`owned, this`ring, this`ops
      ensures Reaches(old(L()), [a], L()) && Unlocked(L())
      ensures ok || !HasRoom(L())
      ensures Line(ops) == (if ok then [] else [old(ops.staging.value)]) + old(Line(ops))
      ensures ops.held == old(ops.held) && ops.flagged == old(ops.flagged)
      ensures ok ==> ring.sq != [] && ring.sq[|ring.sq| - 1].body == Work(old(ops.staging.value))
      ensures SameCq(old(ring), ring) && |old(ring.sq)| <= |ring.sq| && owned.cancelQueue == old(owned.cancelQueue)
    {
      hide Reaches;
      NoSteps(L());
      var op := ops.staging.value;
      var p := Allocate();
      if p in raw.contexts || p in owned.contexts || p in owned.cancels {
        assert false;
      }
      ok := PushSqe(Owned(p), Work(op));
      if ok {
        owned := owned.(contexts := owned.contexts[p := OwnedContext(S.Staged, op, Some(op), false, false)]);
        ops := ops.(staging := None);
        a := DoStageOwned(p);
        assert L() == StageOwned(old(L()), p);
        MoreStageOwned(old(L()), [], old(L()), p);
      } else {
        ops := ops.(staging := None, pending := [op] + ops.pending);
        a := DoPushBack;
        assert L() == PushBack(old(L()));
        MorePushBack(old(L()), [], old(L()));
      }
      assert [] + [a] == [a];
    }

    /** One iteration of `stage_owned`; false when there is nothing to pop or the SQ is full. */
    method StageNextOwned() returns (go: bool, ghost acts: seq<Action>)
      requires Unlocked(L())
      modifies this`owned, this`ring, this`ops
      ensures Reaches(old(L()), acts, L()) && Unlocked(L())
      ensures !go ==> Line(ops) == old(Line(ops)) && (Line(ops) == [] || !HasRoom(L()))
      ensures go ==> old(Line(ops)) != [] && Line(ops) == old(Line(ops))[1..]
      ensures go ==> FailedAtPop(old(Line(ops))[0], old(ops.held), ops.held)
      ensures go && ops.held == old(ops.held) ==>
                ring.sq != [] && ring.sq[|ring.sq| - 1].body == Work(old(Line(ops))[0])
      ensures SameCq(old(ring), ring) && |old(ring.sq)| <= |ring.sq| && owned.cancelQueue == old(owned.cancelQueue)
    {
      hide Reaches;
      hide PopOwned;
      NoSteps(L());
      if ops.pending == [] && ops.queue == [] {
        return false, [];
      }
      ghost var before := L();
      TakeOwned();
      ghost var popped := L();
      MorePop(before, [], before);
      PopLine(before);
      acts := [] + [DoPopOwned];
      if ops.staging.None? {
        return true, acts;
      }
      ghost var a;
      go, a := PlaceOwned();
      Concat(before, acts, popped, [a], L());
      acts := acts + [a];
    }

    /**
      `stage_owned`: up to `budget` operations leave the front of the line, which is the pushed-back
      operations followed by the producer queue, and fewer only if the line or the SQ ends first.
     */
    method StageOwnedOps(budget: nat) returns (taken: nat, ghost acts: seq<Action>)
      requires Unlocked(L())
      modifies this`owned, this`ring, this`ops
      ensures Reaches(old(L()), acts, L()) && Unlocked(L())
      ensures taken <= budget && taken <= |old(Line(ops))| && Line(ops) == old(Line(ops))[taken..]
      ensures taken == budget || Line(ops) == [] || !HasRoom(L())
      ensures SameCq(old(ring), ring) && |old(ring.sq)| <= |ring.sq| && owned.cancelQueue == old(owned.cancelQueue)
    {
      hide Reaches;
      hide Line;
      NoSteps(L());
      taken, acts := 0, [];
      while taken < budget
        invariant SameCq(old(ring), ring) && |old(ring.sq)| <= |ring.sq| && owned.cancelQueue == old(owned.cancelQueue)
        invariant Reaches(old(L()), acts, L()) && Unlocked(L())
        invariant taken <= budget && taken <= |old(Line(ops))| && Line(ops) == old(Line(ops))[taken..]
      {
        ghost var before := L();
        ghost var line := Line(ops);
        var go;
        ghost var more;
        go, more := StageNextOwned();
        Concat(old(L()), acts, before, more, L());
        acts := acts + more;
        if !go {
          break;
        }
        assert line[1..] == old(Line(ops))[taken + 1..];
        taken := taken + 1;
      }
    }

    // ----- Submission --------------------------------------------------------------------------------------

    /** One entry of the accepted prefix; false where the program would abort. */
    method AcceptEntry() returns (ok: bool)
      requires ring.sq != []
      modifies this`raw, this`owned, this`ring, this`subs
      ensures ok == Accept(old(L())).Done?
      ensures L() == if ok then Accept(old(L())).value else old(L())
    {
      if ring.staged == [] {
        return false;
      }
      var front := ring.staged[0];
      match front {
        case Raw(p) =>
          if p !in raw.contexts || raw.contexts[p].phase != S.Staged {
            return false;
          }
          var x := raw.contexts[p];
          raw := raw.(contexts := raw.contexts[p := x.(phase := S.Submitted)]);
          if x.kind == Original && x.sub in subs {
            subs := subs[x.sub := CountAccepted(subs[x.sub])];
          }
        case Owned(p) =>
          if p !in owned.contexts || owned.contexts[p].phase != S.Staged {
            return false;
          }
          owned := owned.(contexts := owned.contexts[p := owned.contexts[p].(phase := S.Submitted)]);
        case OwnedCancel(p) =>
          if p !in owned.cancels || owned.cancels[p].phase != S.Staged {
            return false;
          }
          owned := owned.(cancels := owned.cancels[p := owned.cancels[p].(phase := S.Submitted)]);
      }
      ring := AcceptFront(ring);
      ok := true;
    }

    /**
      `submit_staged`: the kernel takes `count` entries off the SQ, or none when it asks to retry, and
      exactly the contexts of that prefix become submitted.
     */
    method SubmitStaged(count: Option<nat>) returns (ok: bool, ghost acts: seq<Action>)
      requires Unlocked(L()) && (count.Some? ==> count.value <= |ring.sq|)
      modifies this`raw, this`owned, this`ring, this`subs
      ensures Reaches(old(L()), acts, L()) && Unlocked(L())
      ensures AllAre(acts, |acts|, DoAccept) && (ok ==> |acts| == if count.Some? then count.value else 0)
      ensures !ok ==> |ring.staged| < |ring.sq| || (ring.sq != [] && Accept(L()).Abort?)
      ensures SameCq(old(ring), ring) && SameStreams(old(subs), subs) && |ring.sq| + |acts| == |old(ring.sq)|
      ensures raw.cancelQueue == old(raw.cancelQueue) && owned.cancelQueue == old(owned.cancelQueue)
    {
      hide Reaches;
      hide Accept;
      NoSteps(L());
      acts := [];
      if count.None? {
        return true, [];
      }
      if count.value > |ring.staged| {
        return false, [];
      }
      var n := 0;
      while n < count.value
        invariant SameCq(old(ring), ring) && SameStreams(old(subs), subs)
        invariant raw.cancelQueue == old(raw.cancelQueue) && owned.cancelQueue == old(owned.cancelQueue)
        invariant Reaches(old(L()), acts, L()) && Unlocked(L())
        invariant n <= count.value && AllAre(acts, n, DoAccept)
        invariant |ring.sq| == |old(ring.sq)| - n
      {
        ghost var before := L();
        ok := AcceptEntry();
        if !ok {
          return;
        }
        AcceptShrinks(before);
        MoreAccept(old(L()), acts, before);
        acts := acts + [DoAccept];
        n := n + 1;
      }
      ok := true;
    }

    // ----- Admission ---------------------------------------------------------------------------------------

    /** One turn of the loop of `admit`; false when the iterator is finished or the SQ is full. */
    method AdmitNext(sub: SubId) returns (go: bool, ghost acts: seq<Action>)
      requires Admitting(L(), sub) && CursorSane(cursors[sub])
      modifies this`raw, this`ring, this`subs, this`cursors
      ensures Reaches(old(L()), acts, L()) && Admitting(L(), sub) && CursorSane(cursors[sub])
      ensures cursors[sub].entries == old(cursors[sub].entries)
      ensures go ==> Left(cursors[sub]) < Left(old(cursors[sub]))
      ensures !go ==> subs[sub].iteratorFinished || (cursors[sub].pending.Some? && !HasRoom(L()))
      ensures !go ==> !GivesWork(acts)
    {
      hide Reaches;
      NoSteps(L());
      acts := [];
      if cursors[sub].pending.None? {
        if cursors[sub].next < |cursors[sub].entries| {
          cursors := cursors[sub := Yield(cursors[sub])];
          assert L() == SetCursor(old(L()), sub, Yield(old(L()).cursors[sub]));
          MoreYield(old(L()), acts, old(L()), sub);
          acts := acts + [DoYield(sub)];
        } else {
          subs := subs[sub := FinishIterator(subs[sub])];
          MoreFinishIterator(old(L()), acts, old(L()), sub);
          return false, acts + [DoFinishIterator(sub)];
        }
      }
      ghost var before := L();
      var i := cursors[sub].pending.value;
      cursors := cursors[sub := cursors[sub].(pending := None)];
      var p := Allocate();
      if p in raw.contexts {
        assert false;
      }
      go := PushSqe(Raw(p), Caller(sub, i));
      if go {
        raw := raw.(contexts := raw.contexts[p :=
          RawContext(Original, S.Staged, i, cursors[sub].entries[i], sub, None, false, false)]);
        subs := subs[sub := CountOriginals(subs[sub])];
        assert L() == StageOriginal(before, sub, p);
        MoreStageOriginal(old(L()), acts, before, sub, p);
        acts := acts + [DoStageOriginal(sub, p)];
      } else {
        cursors := cursors[sub := cursors[sub].(pending := Some(i))];
        assert cursors == before.cursors;
        assert L() == before;
      }
    }

    /** The loop of `admit`: it ends with the iterator or with a full SQ and one item in hand. */
    method AdmitAll(sub: SubId) returns (notify: bool, ghost acts: seq<Action>)
      requires Admitting(L(), sub) && CursorSane(cursors[sub])
      modifies this`raw, this`ring, this`subs, this`cursors
      ensures Reaches(old(L()), acts, L()) && Unlocked(L()) && HasSub(L(), sub)
      ensures subs[sub].iteratorFinished || (cursors[sub].pending.Some? && !HasRoom(L()))
      ensures !notify ==> !GivesWork(acts)
    {
      hide Reaches;
      NoSteps(L());
      notify, acts := false, [];
      var go := true;
      while go
        invariant Reaches(old(L()), acts, L()) && Admitting(L(), sub) && CursorSane(cursors[sub])
        invariant !go ==> subs[sub].iteratorFinished || (cursors[sub].pending.Some? && !HasRoom(L()))
        invariant !notify ==> !GivesWork(acts)
        decreases go, Left(cursors[sub])
      {
        ghost var before := L();
        ghost var more;
        go, more := AdmitNext(sub);
        notify := notify || go;
        Concat(old(L()), acts, before, more, L());
        acts := acts + more;
      }
    }

    /** The update of a submission by one original CQE, in the order of the branches of `dispatch_raw`. */
    static method DeliverOriginal(before: Sub.Submission, d: Sub.Completion, limit: nat)
      returns (st: Sub.Submission, overflow: bool)
      ensures st == Sub.OnOriginal(before, d, limit)
      ensures overflow == Sub.Overflows(before.buffers, limit)
    {
      overflow := false;
      var buffers, counts, waiters := before.buffers, before.counts, before.waiters;
      if !before.iteratorFinished {
        waiters := waiters.(admission := false);
      }
      if buffers.delivery == Sub.Open {
        if |buffers.normal| < limit {
          buffers := buffers.(normal := buffers.normal + [d]);
        } else if !buffers.normalOverflow {
          buffers := buffers.(normalOverflow := true, delivery := Sub.Overflow);
          overflow := true;
        }
        waiters := waiters.(normal := false);
      }
      if !d.more {
        counts := counts.(originalTerminal := counts.originalTerminal + 1);
        if counts.originalTerminal == counts.originals {
          waiters := waiters.(normal := false);
        }
        if Sub.Drained(counts) {
          waiters := waiters.(drain := false);
        }
      }
      assert buffers == Sub.BufferOriginal(before.buffers, d, limit);
      assert waiters == Sub.WakeOnOriginal(before, d.more);
      st := Sub.Submission(before.iteratorFinished, buffers, counts, waiters,
                           Sub.Woken(before.history.(arrived := before.history.arrived + [d]), before.waiters, waiters));
    }

    /** The update of a submission by one cancellation CQE. */
    static method DeliverCancel(before: Sub.Submission, d: Sub.Completion, limit: nat) returns (st: Sub.Submission)
      ensures st == Sub.OnCancel(before, d, limit)
    {
      var buffers, counts, waiters := before.buffers, before.counts, before.waiters;
      if buffers.delivery != Sub.Detached {
        if |buffers.cancellations| < limit {
          buffers := buffers.(cancellations := buffers.cancellations + [d]);
        } else {
          buffers := buffers.(cancelOverflow := true);
        }
        waiters := waiters.(cancel := false);
      }
      counts := counts.(cancelTerminal := counts.cancelTerminal + 1);
      if counts.cancelTerminal == counts.cancels {
        waiters := waiters.(cancel := false);
      }
      if Sub.Drained(counts) {
        waiters := waiters.(drain := false);
      }
      assert waiters == Sub.WakeOnCancel(before);
      st := Sub.Submission(before.iteratorFinished, buffers, counts, waiters,
                           Sub.Woken(before.history.(cancels := Sub.LogCancel(before.history.cancels, before.buffers, d, limit)),
                                     before.waiters, waiters));
    }

    // ----- Cancellation ------------------------------------------------------------------------------------

    /** One target of `request_cancel`. */
    method QueueOneCancel(p: Addr)
      requires CanQueueCancel(L(), p)
      modifies this`raw, this`subs
      ensures L() == QueueCancel(old(L()), p)
    {
      var x := raw.contexts[p];
      raw := RawSide(raw.contexts[p := x.(cancelQueued := true)],
                     raw.cancelQueue + [CancelCommand(p, x.index, x.userData, x.sub)]);
      subs := subs[x.sub := CountCancels(subs[x.sub])];
    }

    /** The first section of `request_cancel`. */
    method CloseDelivery(sub: SubId, d: Sub.Delivery)
      requires HasSub(L(), sub) && d != Sub.Open
      modifies this`subs
      ensures L() == SetSub(old(L()), sub, Sub.RequestDelivery(old(subs[sub]), d))
    {
      var st := subs[sub];
      if st.buffers.delivery == Sub.Open || d == Sub.Detached {
        st := st.(buffers := st.buffers.(delivery := d));
      }
      if d == Sub.Detached {
        st := st.(buffers := st.buffers.(normal := [], cancellations := []),
                  waiters := st.waiters.(normal := false, cancel := false));
      }
      subs := subs[sub := st];
    }

    ghost predicate Uncancelled(sub: SubId, p: Addr)
      reads this`raw
    {
      NeedsCancel(raw.contexts, p) && raw.contexts[p].sub == sub
    }

    /** The second section: every original of the submission that may still complete gets one command. */
    method CancelTargets(sub: SubId) returns (ghost acts: seq<Action>)
      requires Unlocked(L()) && HasSub(L(), sub)
      modifies this`raw, this`subs
      ensures Reaches(old(L()), acts, L()) && HasSub(L(), sub)
      ensures SameStreams(old(subs), subs) && FewerTargets(old(raw.contexts), raw.contexts)
      ensures forall i | 0 <= i < |acts| :: acts[i].DoQueueCancel?
      ensures ClearOf(raw.contexts, sub)
      ensures |raw.cancelQueue| == |old(raw.cancelQueue)| + |acts|
    {
      hide Reaches;
      hide SameStreams;
      hide FewerTargets;
      NoSteps(L());
      NothingKept(subs, raw.contexts);
      acts := [];
      var targets: set<Addr> := set p | p in raw.contexts && NeedsCancel(raw.contexts, p) && raw.contexts[p].sub == sub;
      while targets != {}
        invariant Reaches(old(L()), acts, L()) && Unlocked(L()) && HasSub(L(), sub)
        invariant SameStreams(old(subs), subs) && FewerTargets(old(raw.contexts), raw.contexts)
        invariant forall i | 0 <= i < |acts| :: acts[i].DoQueueCancel?
        invariant forall p: Addr :: p in targets <==> Uncancelled(sub, p)
        invariant |raw.cancelQueue| == |old(raw.cancelQueue)| + |acts|
        decreases |targets|
      {
        ghost var before := L();
        var p :| p in targets;
        assert Uncancelled(sub, p);
        targets := targets - {p};
        QueueOneCancel(p);
        QueueKeeps(old(subs), old(raw.contexts), before, p);
        MoreQueueCancel(old(L()), acts, before, p);
        acts := acts + [DoQueueCancel(p)];
      }
      assert forall p | NeedsCancel(raw.contexts, p) && raw.contexts[p].sub == sub :: Uncancelled(sub, p);
    }

    /**
      `request_cancel`: delivery closes as asked, and of the originals of the submission that may
      still complete none is left without a command.
     */
    method RequestCancel(sub: SubId, d: Sub.Delivery) returns (ghost acts: seq<Action>)
      requires Unlocked(L()) && HasSub(L(), sub) && d != Sub.Open
      modifies this`raw, this`subs
      ensures Reaches(old(L()), acts, L()) && Unlocked(L()) && HasSub(L(), sub)
      ensures subs[sub].buffers.delivery != Sub.Open && (d == Sub.Detached ==> subs[sub].buffers.delivery == d)
      ensures DeliveryNamed(old(subs), subs, [sub]) && OnlyCloses(old(subs), subs)
      ensures FewerTargets(old(raw.contexts), raw.contexts) && ClearOf(raw.contexts, sub)
      ensures |acts| > 0 && acts[0] == DoRequestDelivery(sub, d) && forall i | 0 < i < |acts| :: acts[i].DoQueueCancel?
      ensures |raw.cancelQueue| == |old(raw.cancelQueue)| + |acts| - 1
    {
      hide Reaches;
      hide ClearOf;
      hide FewerTargets;
      NoSteps(L());
      CloseDelivery(sub, d);
      MoreDelivery(old(L()), [], old(L()), sub, d);
      acts := [] + [DoRequestDelivery(sub, d)];
      ghost var closed := L();
      ghost var more := CancelTargets(sub);
      Concat(old(L()), acts, closed, more, L());
      acts := acts + more;
    }

    /**
      `request_owned_cancel`: the box of the operation that may still complete, if there is one, gets
      a command; afterwards none is left without.
     */
    method RequestOwnedCancel(op: Op, dropping: bool) returns (ghost t: Option<Addr>)
      requires Unlocked(L()) && (dropping ==> op in ops.flagged)
      requires forall p, q | OwnedTarget(owned.contexts, op, p) && OwnedTarget(owned.contexts, op, q) :: p == q
      modifies this`owned, this`ops, this`flags
      ensures Reaches(old(L()), [DoCancelOwned(op, t, dropping)], L()) && Unlocked(L())
      ensures forall p :: !OwnedTarget(owned.contexts, op, p)
      ensures owned.cancelQueue == old(owned.cancelQueue) + if t.Some? then [t.value] else []
      ensures flags == old(flags).(sweepOps := if dropping then flags.sweepOps else old(flags.sweepOps) - {op})
      ensures dropping ==> flags == old(flags)
    {
      hide Reaches;
      NoSteps(L());
      t := None;
      if p :| p in owned.contexts && OwnedTarget(owned.contexts, op, p) {
        owned := owned.(contexts := owned.contexts[p := owned.contexts[p].(cancelQueued := true)],
                        cancelQueue := owned.cancelQueue + [p]);
        t := Some(p);
      }
      assert old(owned.cancelQueue) + [] == old(owned.cancelQueue);
      assert forall p | OwnedTarget(owned.contexts, op, p) :: OwnedTarget(old(owned.contexts), op, p);
      if dropping {
        ops := ops.(dropped := ops.dropped + {op});
      } else {
        flags := flags.(sweepOps := flags.sweepOps - {op});
      }
      MoreCancelOwned(old(L()), [], old(L()), op, t, dropping);
      assert [] + [DoCancelOwned(op, t, dropping)] == [DoCancelOwned(op, t, dropping)];
    }

    /** `enqueue`: refused once owned admission is closed. */
    method EnqueueOp(op: Op) returns (ok: bool, ghost acts: seq<Action>)
      requires op !in ops.accepted
      modifies this`ops
      ensures Reaches(old(L()), acts, L())
      ensures ok == flags.ownedAdmission
      ensures L() == if ok then Enqueue(old(L()), op) else old(L())
    {
      hide Reaches;
      NoSteps(L());
      acts := [];
      if !flags.ownedAdmission {
        return false, acts;
      }
      ops := ops.(queue := ops.queue + [op], accepted := ops.accepted + {op});
      MoreEnqueue(old(L()), acts, old(L()), op);
      return true, acts + [DoEnqueue(op)];
    }

    /** `enqueue_batch`: the whole batch in order, or nothing. */
    method EnqueueBatch(batch: seq<Op>) returns (ok: bool, ghost acts: seq<Action>)
      requires NoDup(batch) && forall i | 0 <= i < |batch| :: batch[i] !in ops.accepted
      modifies this`ops
      ensures Reaches(old(L()), acts, L())
      ensures ok == flags.ownedAdmission
      ensures ops.queue == if ok then old(ops.queue) + batch else old(ops.queue)
    {
      hide Reaches;
      NoSteps(L());
      acts := [];
      if !flags.ownedAdmission {
        return false, acts;
      }
      var i := 0;
      while i < |batch|
        invariant i <= |batch| && Reaches(old(L()), acts, L())
        invariant ops.queue == old(ops.queue) + batch[..i]
        invariant forall j | i <= j < |batch| :: batch[j] !in ops.accepted
      {
        ghost var before := L();
        var pushed;
        ghost var more;
        pushed, more := EnqueueOp(batch[i]);
        Concat(old(L()), acts, before, more, L());
        acts := acts + more;
        assert batch[..i + 1] == batch[..i] + [batch[i]];
        i := i + 1;
      }
      assert batch[..|batch|] == batch;
      ok := true;
    }

    // ----- Admission, whole --------------------------------------------------------------------------------

    /**
      `admit`: a closed driver cancels the submission; owned work goes first; otherwise queued
      cancellations, then the iterator, then one submission, of which the kernel takes `take` entries
      if it has that many.  `notify` tells whether the driver was notified, which it always is when
      an original was staged or an item is left in hand.
     */
    method Admit(sub: SubId, take: Option<nat>) returns (ok: bool, notify: bool, ghost acts: seq<Action>)
      requires Unlocked(L()) && HasSub(L(), sub) && cursors[sub].active && CursorSane(cursors[sub])
      modifies this`raw, this`owned, this`ring, this`subs, this`cursors
      ensures Reaches(old(L()), acts, L()) && HasSub(L(), sub)
      ensures !ok ==> |ring.staged| < |ring.sq| || (ring.sq != [] && Accept(L()).Abort?)
      ensures !notify ==> !GivesWork(acts)
      ensures !flags.accepting ==> subs[sub].buffers.delivery != Sub.Open && ClearOf(raw.contexts, sub)
      ensures flags.accepting && OwnedFirst(old(L())) ==> notify && L() == old(L())
      ensures ok && flags.accepting && !OwnedFirst(old(L())) ==>
                subs[sub].iteratorFinished
                || (notify && cursors[sub].pending.Some? && |ring.sq| + (if take.Some? then take.value else 0) >= cfg.entries)
    {
      hide Reaches;
      hide Accept;
      NoSteps(L());
      if !flags.accepting {
        acts := RequestCancel(sub, Sub.Cancelling);
        return true, true, acts;
      }
      if ops.pending != [] || owned.cancelQueue != [] || ops.queue != [] {
        return true, true, [];
      }
      acts := StageCancellations();
      ghost var behind := L();
      ghost var more;
      notify, more := AdmitAll(sub);
      Concat(old(L()), acts, behind, more, L());
      acts := acts + more;
      notify := notify || cursors[sub].pending.Some?;
      ghost var filled := L();
      ok, more := SubmitStaged(if take.Some? then Some(if take.value < |ring.sq| then take.value else |ring.sq|) else None);
      Concat(old(L()), acts, filled, more, L());
      acts := acts + more;
    }

    // ----- Completion --------------------------------------------------------------------------------------

    /** The original branch of `dispatch_raw`. */
    method FinishOriginal(c: S.Cqe) returns (overflow: Option<SubId>)
      requires ring.batch != [] && c == ring.batch[0] && c.userData in raw.contexts
      requires raw.contexts[c.userData].sub in subs
      modifies this`raw, this`ring, this`subs
      ensures L() == DispatchOriginal(old(L()), c)
      ensures var x := old(raw.contexts[c.userData]);
              overflow == if Sub.Overflows(old(subs)[x.sub].buffers, cfg.limit) then Some(x.sub) else None
    {
      var x := raw.contexts[c.userData];
      raw := raw.(contexts := raw.contexts - {c.userData});
      var st, first := DeliverOriginal(subs[x.sub], Delivered(x, c), cfg.limit);
      subs := subs[x.sub := st];
      overflow := if first then Some(x.sub) else None;
      if c.more || (x.cancelQueued && !x.cancelSeen) {
        raw := raw.(contexts := raw.contexts[c.userData := if c.more then x else x.(phase := S.Terminal)]);
      }
      assert raw.contexts == RetireOriginal(old(raw.contexts), c.userData, c.more);
      ring := Drop(ring);
    }

    /** The cancellation branch of `dispatch_raw`. */
    method FinishCancel(c: S.Cqe, t: Addr)
      requires ring.batch != [] && c == ring.batch[0] && c.userData in raw.contexts
      requires raw.contexts[c.userData].sub in subs
      requires raw.contexts[c.userData].target == Some(t) && t in raw.contexts && t != c.userData
      modifies this`raw, this`ring, this`subs
      ensures L() == DispatchCancel(old(L()), c)
    {
      var x := raw.contexts[c.userData];
      raw := raw.(contexts := raw.contexts - {c.userData});
      var st := DeliverCancel(subs[x.sub], Delivered(x, c), cfg.limit);
      subs := subs[x.sub := st];
      var original := raw.contexts[t].(cancelSeen := true);
      if original.phase == S.Terminal {
        raw := raw.(contexts := raw.contexts - {t});
      } else {
        raw := raw.(contexts := raw.contexts[t := original]);
      }
      ring := Drop(ring);
    }

    /** `dispatch_raw`, once the address is known to be one of a raw context. */
    method DispatchRawCqe(c: S.Cqe) returns (ok: bool, overflow: Option<SubId>)
      requires ring.batch != [] && c == ring.batch[0] && c.userData in raw.contexts && c.userData != 0
      modifies this`raw, this`ring, this`subs
      ensures ok == Dispatch(old(L())).Done?
      ensures L() == if ok then Dispatch(old(L())).value else old(L())
      ensures var x := old(raw.contexts[c.userData]);
              overflow == if ok && x.kind == Original && x.sub in old(subs) && Sub.Overflows(old(subs)[x.sub].buffers, cfg.limit)
                          then Some(x.sub) else None
      ensures overflow.Some? ==> overflow.value in subs
      ensures var x := old(raw.contexts[c.userData]); var d := Sub.Completion(x.index, x.userData, c.result, c.more);
              ok ==>
                && x.sub in old(subs) && x.sub in subs
                && (x.kind == Original ==> subs[x.sub].history.arrived == old(subs)[x.sub].history.arrived + [d])
                && (x.kind == Cancel ==> subs[x.sub].history.cancels.arrived == old(subs)[x.sub].history.cancels.arrived + [d])
    {
      overflow := None;
      var x := raw.contexts[c.userData];
      if x.phase != S.Submitted || x.sub !in subs {
        return false, None;
      }
      if x.kind == Original {
        overflow := FinishOriginal(c);
        return true, overflow;
      }
      if c.more || x.target.None? || x.target.value == c.userData || x.target.value !in raw.contexts {
        return false, None;
      }
      FinishCancel(c, x.target.value);
      ok := true;
    }

    /** The data section of `dispatch_owned`. */
    method DispatchOwnedCqe(c: S.Cqe) returns (ok: bool)
      requires ring.batch != [] && c == ring.batch[0] && c.userData !in raw.contexts
      modifies this`owned, this`ring, this`ops
      ensures ok == Dispatch(old(L())).Done?
      ensures L() == if ok then Dispatch(old(L())).value else old(L())
      ensures ok && old(c.userData in owned.contexts) ==>
                && old(owned.contexts[c.userData].handler.Some?)
                && ops.held == old(ops.held) + [Finish(old(owned.contexts[c.userData].handler.value), Completed(c.result))]
    {
      if c.userData == 0 {
        return false;
      }
      if c.userData in owned.contexts {
        var x := owned.contexts[c.userData];
        if x.phase != S.Submitted || c.more || x.handler.None? {
          return false;
        }
        owned := owned.(contexts := owned.contexts - {c.userData});
        if x.cancelQueued && !x.cancelSeen {
          owned := owned.(contexts := owned.contexts[c.userData := x.(phase := S.Terminal, handler := None)]);
        }
        assert owned.contexts == RetireOwned(old(owned.contexts), c.userData);
        ops := ops.(held := ops.held + [Finish(x.handler.value, Completed(c.result))]);
      } else if c.userData in owned.cancels {
        var x := owned.cancels[c.userData];
        if x.phase != S.Submitted || c.more || x.target !in owned.contexts {
          return false;
        }
        owned := owned.(cancels := owned.cancels - {c.userData});
        var original := owned.contexts[x.target].(cancelSeen := true);
        if original.phase == S.Terminal {
          owned := owned.(contexts := owned.contexts - {x.target});
        } else {
          owned := owned.(contexts := owned.contexts[x.target := original]);
        }
      } else {
        return false;
      }
      ring := Drop(ring);
      ok := true;
    }

    /** `handler.complete` and `handler.fail`: everything taken out of the data reaches its end, in order. */
    method FinishAll() returns (ghost acts: seq<Action>)
      modifies this`ops
      ensures Reaches(old(L()), acts, L())
      ensures ops.held == [] && ops.finished == old(ops.finished + ops.held)
      ensures ops == old(ops).(held := ops.held, finished := ops.finished)
    {
      hide Reaches;
      NoSteps(L());
      acts := [];
      while ops.held != []
        invariant Reaches(old(L()), acts, L())
        invariant ops.finished + ops.held == old(ops.finished + ops.held)
        invariant ops == old(ops).(held := ops.held, finished := ops.finished)
        decreases |ops.held|
      {
        ghost var before := L();
        ops := ops.(held := ops.held[1..], finished := ops.finished + [ops.held[0]]);
        assert L() == FinishHeld(before);
        MoreFinish(old(L()), acts, before);
        acts := acts + [DoFinishHeld];
      }
    }

    /** `dispatch` of the next reaped CQE, with the completion of the handler it released. */
    method DispatchNext() returns (ok: bool, overflow: Option<SubId>, ghost acts: seq<Action>)
      requires Unlocked(L()) && ring.batch != []
      modifies this`raw, this`owned, this`ring, this`ops, this`subs
      ensures Reaches(old(L()), acts, L()) && Unlocked(L())
      ensures !ok ==> L() == old(L()) && Dispatch(L()).Abort?
      ensures ok ==> ops.held == [] && |ring.batch| == |old(ring.batch)| - 1
      ensures overflow.Some? ==> overflow.value in subs
      ensures DeliveryNamed(old(subs), subs, if overflow.Some? then [overflow.value] else [])
      ensures ring.cq == old(ring.cq) && old(subs).Keys <= subs.Keys
    {
      hide Reaches;
      hide Dispatch;
      NoSteps(L());
      overflow, acts := None, [];
      var c := ring.batch[0];
      ghost var before := L();
      DispatchDrops(before);
      if Dispatch(before).Done? {
        DispatchNames(before);
      }
      if c.userData in raw.contexts {
        if c.userData == 0 {
          ok := false;
          return;
        }
        ok, overflow := DispatchRawCqe(c);
      } else {
        ok := DispatchOwnedCqe(c);
      }
      if !ok {
        return;
      }
      MoreDispatch(before, acts, before);
      acts := acts + [DoDispatch];
      ghost var dispatched := L();
      ghost var more := FinishAll();
      Concat(before, acts, dispatched, more, L());
      acts := acts + more;
    }

    /** The dispatch loop of `pass`: every reaped CQE, oldest first, then the overflowing submissions. */
    method DispatchAll() returns (ok: bool, overflow: seq<SubId>, ghost acts: seq<Action>)
      requires Unlocked(L())
      modifies this`raw, this`owned, this`ring, this`ops, this`subs
      ensures Reaches(old(L()), acts, L()) && Unlocked(L())
      ensures ok ==> ring.batch == []
      ensures !ok ==> ring.batch != [] && Dispatch(L()).Abort?
      ensures old(ops.held) == [] ==> ops.held == []
      ensures ring.cq == old(ring.cq) && forall i | 0 <= i < |overflow| :: overflow[i] in subs
      ensures DeliveryNamed(old(subs), subs, overflow)
    {
      hide Reaches;
      hide Dispatch;
      NoSteps(L());
      ok, overflow, acts := true, [], [];
      while ok && ring.batch != []
        invariant Reaches(old(L()), acts, L()) && Unlocked(L())
        invariant !ok ==> ring.batch != [] && Dispatch(L()).Abort?
        invariant old(ops.held) == [] ==> ops.held == []
        invariant ring.cq == old(ring.cq) && forall i | 0 <= i < |overflow| :: overflow[i] in subs
        invariant DeliveryNamed(old(subs), subs, overflow)
        decreases ok, |ring.batch|
      {
        ghost var before := L();
        var full;
        ghost var more;
        ok, full, more := DispatchNext();
        Concat(old(L()), acts, before, more, L());
        acts := acts + more;
        if full.Some? {
          overflow := overflow + [full.value];
        }
      }
    }
  }
}
