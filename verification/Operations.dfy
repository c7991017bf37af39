/** Owned operations: each accepted one is in exactly one place, and ends exactly once. */
module Operations {
  import opened Prelude
  import opened Ledger
  import opened Shape
  import S = Slots

  function FinishesOf(fs: seq<Finish>, op: Op): nat {
    if fs == [] then 0 else (if fs[0].op == op then 1 else 0) + FinishesOf(fs[1..], op)
  }

  lemma {:induction false} FinishesPush(fs: seq<Finish>, f: Finish, op: Op)
    ensures FinishesOf(fs + [f], op) == FinishesOf(fs, op) + (if f.op == op then 1 else 0)
  {
    if fs == [] {
      assert fs + [f] == [f];
      assert FinishesOf([f][1..], op) == 0;
    } else {
      assert (fs + [f])[1..] == fs[1..] + [f];
      FinishesPush(fs[1..], f, op);
    }
  }

  function Occurs(s: seq<Op>, op: Op): nat {
    multiset(s)[op]
  }

  lemma OccursPush(s: seq<Op>, x: Op, op: Op)
    ensures Occurs(s + [x], op) == Occurs(s, op) + (if x == op then 1 else 0)
    ensures Occurs([x] + s, op) == Occurs(s, op) + (if x == op then 1 else 0)
  {
  }

  lemma OccursPop(s: seq<Op>, op: Op)
    requires s != []
    ensures Occurs(s, op) == Occurs(s[1..], op) + (if s[0] == op then 1 else 0)
  {
    assert s == [s[0]] + s[1..];
  }

  /** The boxes that still hold the handler of `op`. */
  function Holders(oc: map<Addr, OwnedContext>, op: Op): set<Addr> {
    set p | p in oc && oc[p].handler == Some(op)
  }

  /** How many places an operation is in. */
  function Places(o: Ops, oc: map<Addr, OwnedContext>, op: Op): nat {
    Occurs(o.queue, op) + Occurs(o.pending, op) + (if o.staging == Some(op) then 1 else 0) + |Holders(oc, op)|
    + FinishesOf(o.held, op) + FinishesOf(o.finished, op)
  }

  ghost predicate PlacesOk(o: Ops, oc: map<Addr, OwnedContext>) {
    forall op :: Places(o, oc, op) == if op in o.accepted then 1 else 0
  }

  /**
    Once the drop of its future has returned, an operation cannot slip into the kernel uncancelled:
    its flag is set, it is not between the check and the push, and any box of it that can still
    complete has a cancellation queued.
   */
  ghost predicate DroppedOk(o: Ops, oc: map<Addr, OwnedContext>) {
    && o.dropped <= o.flagged <= o.accepted
    && (forall op | op in o.dropped ::
          && o.staging != Some(op)
          && (forall p | p in oc && oc[p].control == op && oc[p].phase != S.Terminal :: oc[p].cancelQueued))
  }

  /** An operation fails for the reason it is told. */
  ghost predicate OutcomeOk(f: Finish, o: Ops, shutdown: bool, supported: set<nat>) {
    match f.outcome
    case Completed(_) => true
    case Closed => shutdown
    case Cancelled => f.op in o.flagged
    case Unsupported => f.op.opcode !in supported
  }

  ghost predicate OutcomesOk(o: Ops, shutdown: bool, supported: set<nat>) {
    && (forall i | 0 <= i < |o.held| :: OutcomeOk(o.held[i], o, shutdown, supported))
    && (forall i | 0 <= i < |o.finished| :: OutcomeOk(o.finished[i], o, shutdown, supported))
  }

  // ----- Holders ------------------------------------------------------------------------------------

  lemma HoldersGone(oc: map<Addr, OwnedContext>, p: Addr, op: Op)
    requires p in oc
    ensures |Holders(oc - {p}, op)| + (if oc[p].handler == Some(op) then 1 else 0) == |Holders(oc, op)|
  {
    if oc[p].handler == Some(op) {
      assert Holders(oc, op) == Holders(oc - {p}, op) + {p};
    } else {
      assert Holders(oc, op) == Holders(oc - {p}, op);
    }
  }

  lemma HoldersNew(oc: map<Addr, OwnedContext>, p: Addr, x: OwnedContext, op: Op)
    requires p !in oc
    ensures |Holders(oc[p := x], op)| == |Holders(oc, op)| + (if x.handler == Some(op) then 1 else 0)
  {
    if x.handler == Some(op) {
      assert Holders(oc[p := x], op) == Holders(oc, op) + {p};
    } else {
      assert Holders(oc[p := x], op) == Holders(oc, op);
    }
  }

  lemma HoldersPut(oc: map<Addr, OwnedContext>, p: Addr, x: OwnedContext, op: Op)
    requires p in oc
    ensures |Holders(oc[p := x], op)| + (if oc[p].handler == Some(op) then 1 else 0)
         == |Holders(oc, op)| + (if x.handler == Some(op) then 1 else 0)
  {
    HoldersGone(oc, p, op);
    HoldersNew(oc - {p}, p, x, op);
    assert (oc - {p})[p := x] == oc[p := x];
  }

  lemma HoldersSame(oc: map<Addr, OwnedContext>, p: Addr, x: OwnedContext)
    requires p in oc && x.handler == oc[p].handler
    ensures forall op :: Holders(oc[p := x], op) == Holders(oc, op)
  {
  }

  // ----- Steps ----------------------------------------------------------------------------------------

  lemma EnqueuePlaces(o: Ops, oc: map<Addr, OwnedContext>, op: Op)
    requires PlacesOk(o, oc) && op !in o.accepted
    ensures PlacesOk(o.(queue := o.queue + [op], accepted := o.accepted + {op}), oc)
  {
    forall x
      ensures Occurs(o.queue + [op], x) == Occurs(o.queue, x) + (if op == x then 1 else 0)
    {
      OccursPush(o.queue, op, x);
    }
    assert Places(o, oc, op) == 0;
  }

  lemma PopPlaces(l: Ledger)
    requires PlacesOk(l.ops, l.owned.contexts) && CanPopOwned(l)
    ensures PlacesOk(PopOwned(l).ops, l.owned.contexts)
  {
    var o, o' := l.ops, PopOwned(l).ops;
    var op := NextOwned(o);
    forall x
      ensures Places(o', l.owned.contexts, x) == Places(o, l.owned.contexts, x)
    {
      if o.pending != [] {
        OccursPop(o.pending, x);
      } else {
        OccursPop(o.queue, x);
      }
      if Refusal(l, op).Some? {
        FinishesPush(o.held, Finish(op, Refusal(l, op).value), x);
      }
    }
  }

  lemma StagePlaces(l: Ledger, p: Addr)
    requires PlacesOk(l.ops, l.owned.contexts) && CanStageOwned(l, p)
    ensures PlacesOk(StageOwned(l, p).ops, StageOwned(l, p).owned.contexts)
  {
    var m := StageOwned(l, p);
    forall x
      ensures Places(m.ops, m.owned.contexts, x) == Places(l.ops, l.owned.contexts, x)
    {
      HoldersNew(l.owned.contexts, p, m.owned.contexts[p], x);
    }
  }

  lemma PushBackPlaces(l: Ledger)
    requires PlacesOk(l.ops, l.owned.contexts) && l.ops.staging.Some?
    ensures PlacesOk(PushBack(l).ops, l.owned.contexts)
  {
    forall x
      ensures Places(PushBack(l).ops, l.owned.contexts, x) == Places(l.ops, l.owned.contexts, x)
    {
      OccursPush(l.ops.pending, l.ops.staging.value, x);
    }
  }

  lemma FinishPlaces(o: Ops, oc: map<Addr, OwnedContext>)
    requires PlacesOk(o, oc) && o.held != []
    ensures PlacesOk(o.(held := o.held[1..], finished := o.finished + [o.held[0]]), oc)
  {
    var o' := o.(held := o.held[1..], finished := o.finished + [o.held[0]]);
    forall x
      ensures Places(o', oc, x) == Places(o, oc, x)
    {
      FinishesPush(o.finished, o.held[0], x);
    }
  }

  lemma DispatchPlaces(o: Ops, oc: map<Addr, OwnedContext>, p: Addr, result: int)
    requires PlacesOk(o, oc) && p in oc && oc[p].handler.Some?
    ensures PlacesOk(o.(held := o.held + [Finish(oc[p].handler.value, Completed(result))]), RetireOwned(oc, p))
  {
    var f := Finish(oc[p].handler.value, Completed(result));
    var o' := o.(held := o.held + [f]);
    forall x
      ensures Places(o', RetireOwned(oc, p), x) == Places(o, oc, x)
    {
      FinishesPush(o.held, f, x);
      if oc[p].cancelQueued && !oc[p].cancelSeen {
        HoldersPut(oc, p, oc[p].(phase := S.Terminal, handler := None), x);
      } else {
        HoldersGone(oc, p, x);
      }
    }
  }

  lemma SeePlaces(o: Ops, oc: map<Addr, OwnedContext>, t: Addr)
    requires PlacesOk(o, oc) && t in oc && (oc[t].phase == S.Terminal ==> oc[t].handler.None?)
    ensures PlacesOk(o, SeeOwned(oc, t))
  {
    forall x
      ensures Places(o, SeeOwned(oc, t), x) == Places(o, oc, x)
    {
      if oc[t].phase == S.Terminal {
        HoldersGone(oc, t, x);
      } else {
        HoldersPut(oc, t, oc[t].(cancelSeen := true), x);
      }
    }
  }

  lemma SamePlaces(o: Ops, oc: map<Addr, OwnedContext>, p: Addr, x: OwnedContext)
    requires PlacesOk(o, oc) && p in oc && x.handler == oc[p].handler
    ensures PlacesOk(o, oc[p := x])
  {
    HoldersSame(oc, p, x);
  }

  // ----- Cancellation ---------------------------------------------------------------------------------

  /** No operation has two boxes that can still complete. */
  lemma OneBox(o: Ops, oc: map<Addr, OwnedContext>, cc: map<Addr, OwnedCancelContext>, p: Addr, q: Addr)
    requires PlacesOk(o, oc) && OwnedShape(oc, cc) && p in oc && q in oc && p != q
    requires oc[p].phase != S.Terminal && oc[q].phase != S.Terminal
    ensures oc[p].control != oc[q].control
  {
    if oc[p].control == oc[q].control {
      var op := oc[p].control;
      assert Places(o, oc, op) <= 1;
      HoldersGone(oc, p, op);
      HoldersGone(oc - {p}, q, op);
      assert false;
    }
  }

  lemma CancelOwnedDropped(l: Ledger, op: Op, t: Option<Addr>)
    requires DroppedOk(l.ops, l.owned.contexts) && PlacesOk(l.ops, l.owned.contexts)
    requires OwnedShape(l.owned.contexts, l.owned.cancels) && CanCancelOwned(l, op, t, true)
    ensures DroppedOk(l.ops.(dropped := l.ops.dropped + {op}), CancelOwned(l, t).owned.contexts)
  {
    var oc, od := l.owned.contexts, CancelOwned(l, t).owned.contexts;
    forall p | p in od && od[p].control == op && od[p].phase != S.Terminal
      ensures od[p].cancelQueued
    {
      if t.Some? && t.value != p {
        OneBox(l.ops, oc, l.owned.cancels, p, t.value);
      } else if t.None? {
        assert !OwnedTarget(oc, op, p);
      }
    }
  }

  datatype Place = InQueue | InPending | InHands | InBox(p: Addr) | InHeld | IsFinished

  ghost predicate At(o: Ops, oc: map<Addr, OwnedContext>, op: Op, w: Place) {
    match w
    case InQueue => op in o.queue
    case InPending => op in o.pending
    case InHands => o.staging == Some(op)
    case InBox(p) => p in oc && oc[p].handler == Some(op)
    case InHeld => FinishesOf(o.held, op) > 0
    case IsFinished => FinishesOf(o.finished, op) > 0
  }

  /** Conservation: an accepted operation is in one place, and in no second one. */
  lemma Conserved(o: Ops, oc: map<Addr, OwnedContext>, op: Op)
    requires PlacesOk(o, oc)
    ensures op in o.accepted <==> exists w :: At(o, oc, op, w)
    ensures forall v, w | At(o, oc, op, v) && At(o, oc, op, w) :: v == w
    ensures FinishesOf(o.finished, op) <= 1
  {
    assert Places(o, oc, op) == if op in o.accepted then 1 else 0;
    assert forall p | p in oc && oc[p].handler == Some(op) :: p in Holders(oc, op);
    forall v, w | At(o, oc, op, v) && At(o, oc, op, w)
      ensures v == w
    {
      if v.InBox? && w.InBox? && v.p != w.p {
        HoldersGone(oc, v.p, op);
        HoldersGone(oc - {v.p}, w.p, op);
      }
    }
    if op in o.accepted {
      if |Holders(oc, op)| > 0 {
        var p :| p in Holders(oc, op);
        assert At(o, oc, op, InBox(p));
      } else {
        assert At(o, oc, op, InQueue) || At(o, oc, op, InPending) || At(o, oc, op, InHands)
            || At(o, oc, op, InHeld) || At(o, oc, op, IsFinished);
      }
    } else {
      assert Holders(oc, op) == {};
    }
  }

  /**
    Once the drop of its future has returned, an operation either waits unstaged with its flag set,
    or sits in a box whose cancellation is queued, or is on its way to its single end.
   */
  lemma NeverMissed(o: Ops, oc: map<Addr, OwnedContext>, cc: map<Addr, OwnedCancelContext>, op: Op)
    requires PlacesOk(o, oc) && DroppedOk(o, oc) && OwnedShape(oc, cc) && op in o.dropped
    ensures || ((op in o.queue || op in o.pending) && op in o.flagged)
            || (exists p :: p in oc && oc[p].handler == Some(op) && oc[p].cancelQueued)
            || FinishesOf(o.held, op) > 0
            || FinishesOf(o.finished, op) > 0
  {
    Conserved(o, oc, op);
    var w :| At(o, oc, op, w);
    if w.InBox? {
      assert oc[w.p].control == op;
    }
  }
}
