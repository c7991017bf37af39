/**
  The life of one kernel `user_data` address, seen without the details of what is stored there.

  Every boxed context of the io_uring driver goes through the same life: it is staged in the
  userspace submission queue, accepted by the kernel, completed by zero or more CQEs with the MORE
  flag and one without, and finally forgotten.  The three context maps of the driver project onto
  one `Slots` value; what is proved here about addresses therefore holds for all of them at once.
 */
module Slots {

  type Addr = nat

  datatype Phase = Staged | Submitted | Terminal

  datatype Cqe = Cqe(userData: Addr, result: int, more: bool)

  /** `pending` holds every posted CQE not yet dispatched, oldest first. */
  datatype Slots = Slots(phase: map<Addr, Phase>, staged: seq<Addr>, inflight: set<Addr>, pending: seq<Cqe>)

  function Init(): Slots {
    Slots(map[], [], {}, [])
  }

  datatype Event =
    | Idle
    | Stage(a: Addr)
    | Accept
    | Post(c: Cqe)
    | Dispatch(keep: bool)
    | Forget(a: Addr)

  ghost predicate Enabled(s: Slots, e: Event) {
    match e
    case Idle => true
    // the allocator returns any non-zero address that no live box occupies
    case Stage(a) => a != 0 && a !in s.phase
    case Accept => s.staged != []
    case Post(c) => c.userData in s.inflight
    case Dispatch(keep) => s.pending != []
    case Forget(a) => a in s.phase && s.phase[a] == Terminal
  }

  ghost function Apply(s: Slots, e: Event): Slots
    requires Enabled(s, e)
  {
    match e
    case Idle => s
    case Stage(a) => s.(phase := s.phase[a := Staged], staged := s.staged + [a])
    case Accept =>
      s.(phase := s.phase[s.staged[0] := Submitted], staged := s.staged[1..], inflight := s.inflight + {s.staged[0]})
    case Post(c) =>
      s.(pending := s.pending + [c], inflight := if c.more then s.inflight else s.inflight - {c.userData})
    case Dispatch(keep) =>
      var c := s.pending[0];
      s.(pending := s.pending[1..],
         phase := if c.more then s.phase else if keep then s.phase[c.userData := Terminal] else s.phase - {c.userData})
    case Forget(a) => s.(phase := s.phase - {a})
  }

  ghost predicate StagedOk(s: Slots) {
    && 0 !in s.phase
    && (forall i | 0 <= i < |s.staged| :: s.staged[i] in s.phase && s.phase[s.staged[i]] == Staged)
    && (forall i, j | 0 <= i < j < |s.staged| :: s.staged[i] != s.staged[j])
    && (forall a | a in s.phase && s.phase[a] == Staged :: a in s.staged)
  }

  /** The final CQE of an address is its last one, and the kernel has let the address go by then. */
  ghost predicate CqesOk(s: Slots) {
    && (forall a | a in s.inflight :: a in s.phase && s.phase[a] == Submitted)
    && (forall i | 0 <= i < |s.pending| ::
          s.pending[i].userData in s.phase && s.phase[s.pending[i].userData] == Submitted)
    && (forall i, j | 0 <= i < j < |s.pending| && !s.pending[i].more :: s.pending[j].userData != s.pending[i].userData)
    && (forall i | 0 <= i < |s.pending| && !s.pending[i].more :: s.pending[i].userData !in s.inflight)
  }

  ghost predicate FinalPosted(s: Slots, a: Addr) {
    exists i :: 0 <= i < |s.pending| && s.pending[i].userData == a && !s.pending[i].more
  }

  /** A submitted address is still in the kernel or its final CQE waits to be dispatched. */
  ghost predicate SubmittedOk(s: Slots) {
    forall a | a in s.phase && s.phase[a] == Submitted :: a in s.inflight || FinalPosted(s, a)
  }

  ghost predicate Inv(s: Slots) {
    StagedOk(s) && CqesOk(s) && SubmittedOk(s)
  }

  lemma InitInv()
    ensures Inv(Init())
  {
  }

  lemma StagedKept(s: Slots, e: Event)
    requires StagedOk(s) && CqesOk(s) && Enabled(s, e)
    ensures StagedOk(Apply(s, e))
  {
    var t := Apply(s, e);
    if e.Accept? {
      assert forall a | a in s.staged && a != s.staged[0] :: a in s.staged[1..];
    }
    if e.Dispatch? {
      assert s.phase[s.pending[0].userData] == Submitted;
    }
  }

  lemma CqesKept(s: Slots, e: Event)
    requires StagedOk(s) && CqesOk(s) && Enabled(s, e)
    ensures CqesOk(Apply(s, e))
  {
    var t := Apply(s, e);
    if e.Accept? {
      assert s.phase[s.staged[0]] == Staged;
    } else if e.Dispatch? {
      assert forall j | 0 <= j < |t.pending| :: t.pending[j] == s.pending[j + 1];
    }
  }

  lemma SubmittedKept(s: Slots, e: Event)
    requires StagedOk(s) && CqesOk(s) && SubmittedOk(s) && Enabled(s, e)
    ensures SubmittedOk(Apply(s, e))
  {
    var t := Apply(s, e);
    forall a | a in t.phase && t.phase[a] == Submitted
      ensures a in t.inflight || FinalPosted(t, a)
    {
      if a in s.phase && s.phase[a] == Submitted {
        if FinalPosted(s, a) {
          var i :| 0 <= i < |s.pending| && s.pending[i].userData == a && !s.pending[i].more;
          if e.Dispatch? {
            assert i != 0;
            assert t.pending[i - 1] == s.pending[i];
          } else {
            assert t.pending[i] == s.pending[i];
          }
        } else if e.Post? && a !in t.inflight {
          assert t.pending[|s.pending|] == e.c;
        }
      }
    }
  }

  /** Every event of the life of an address keeps the invariant. */
  lemma Kept(s: Slots, e: Event)
    requires Inv(s) && Enabled(s, e)
    ensures Inv(Apply(s, e))
  {
    StagedKept(s, e);
    CqesKept(s, e);
    SubmittedKept(s, e);
  }

  /** Nothing but possibly the oldest pending CQE mentions `a`. */
  ghost predicate Unused(s: Slots, a: Addr) {
    a !in s.inflight && a !in s.staged && forall i | 1 <= i < |s.pending| :: s.pending[i].userData != a
  }

  /** When a final CQE is dispatched its address is free of the SQ, the kernel and the CQ. */
  lemma FinalUnused(s: Slots)
    requires Inv(s) && s.pending != [] && !s.pending[0].more
    ensures Unused(s, s.pending[0].userData)
  {
    assert s.phase[s.pending[0].userData] == Submitted;
  }

  lemma TerminalUnused(s: Slots, a: Addr)
    requires Inv(s) && a in s.phase && s.phase[a] == Terminal
    ensures Unused(s, a)
  {
  }
}
