/**
  Runs of the io_uring driver that show where its promises end, for every configuration.

  One submission, number 0, has its entries in boxes 1, 2, and so on; a cancellation takes the next
  address and gives it back.  The SQ is used one entry at a time, as the driver does when it has one.
 */
module Exceptions {
  import opened Prelude
  import opened Ledger
  import opened Traces
  import opened Streams
  import A = Accounts
  import S = Slots
  import Sub = Submission

  /** `n` originals are in the kernel, the first `queued` of them targeted, and the first `seen` of those cancellations over. */
  datatype Scene = Scene(n: nat, queued: nat, seen: nat, cursor: Cursor, flags: Flags)

  /** The box of the `p`-th original. */
  function Box(p: Addr, queued: nat, seen: nat): RawContext
    requires p > 0
  {
    RawContext(Original, S.Submitted, p - 1, 0, 0, None, p <= queued, p <= seen)
  }

  function Originals(n: nat, queued: nat, seen: nat): (r: map<Addr, RawContext>)
    ensures forall p :: p in r <==> 1 <= p <= n
    ensures forall p | p in r :: r[p] == Box(p, queued, seen)
  {
    if n == 0 then map[] else Originals(n - 1, queued, seen)[n := Box(n, queued, seen)]
  }

  function Inflight(n: nat): (r: map<Addr, Body>)
    ensures forall p :: p in r <==> 1 <= p <= n
    ensures forall p | p in r :: r[p] == Caller(0, p - 1)
  {
    if n == 0 then map[] else Inflight(n - 1)[n := Caller(0, n - 1)]
  }

  function Commands(queued: nat, seen: nat): seq<CancelCommand>
    decreases queued - seen
  {
    if queued <= seen then [] else [CancelCommand(seen + 1, seen, 0, 0)] + Commands(queued, seen + 1)
  }

  function World(cfg: Config, s: Scene, st: Sub.Submission): Ledger {
    Init(cfg).(raw := RawSide(Originals(s.n, s.queued, s.seen), Commands(s.queued, s.seen)),
               ring := Ring([], [], Inflight(s.n), [], []), flags := s.flags,
               subs := map[0 := st], cursors := map[0 := s.cursor])
  }

  // ----- Admission -------------------------------------------------------------------------------------------

  function Zeros(n: nat): (r: seq<nat>)
    ensures |r| == n && forall i | 0 <= i < n :: r[i] == 0
  {
    if n == 0 then [] else [0] + Zeros(n - 1)
  }

  /** After the first `n` of `of` entries have been taken; the next one is in hand. */
  function CursorAt(n: nat, of: nat): Cursor {
    if n < of then Cursor(Zeros(of), n + 1, Some(n), true) else Cursor(Zeros(of), of, None, true)
  }

  function Taking(n: nat, finished: bool): Sub.Submission {
    Sub.Submission(finished, Sub.Buffers(Sub.Open, [], [], false, false), Sub.Counts(n, n, 0, 0, 0),
                   Sub.Waiters(false, false, false, false), Sub.History([], [], 0, false, false, Sub.CancelLog([], [], 0)))
  }

  function OpenFlags(): Flags {
    Flags(true, false, true, {0}, {0}, {}, {})
  }

  function Underway(n: nat, of: nat): Scene {
    Scene(n, 0, 0, CursorAt(n, of), OpenFlags())
  }

  /** The stream of a submission with `n` entries, all in the kernel. */
  function Streaming(n: nat): Scene {
    Scene(n, 0, 0, Cursor(Zeros(n), n, None, false), OpenFlags())
  }

  lemma Registered(cfg: Config, of: nat)
    requires of > 0
    ensures Leads(Init(cfg), World(cfg, Underway(0, of), Taking(0, false)))
  {
    LeadsNowhere(Init(cfg));
    hide Leads;
    var a := DoRegister(0, Zeros(of));
    LeadsOn(Init(cfg), Init(cfg), a);
    var l := Apply(Init(cfg), a).value;
    LeadsOn(Init(cfg), l, DoYield(0));
    var m := Apply(l, DoYield(0)).value;
    assert Originals(0, 0, 0) == map[] && Inflight(0) == map[];
    assert m == World(cfg, Underway(0, of), Taking(0, false));
  }

  /** The entry in hand has gone into the SQ. */
  function InSq(cfg: Config, n: nat, c: Cursor, finished: bool): Ledger {
    World(cfg, Scene(n, 0, 0, c, OpenFlags()), CountOriginals(Taking(n, finished))).(
      raw := RawSide(Originals(n, 0, 0)[n + 1 := RawContext(Original, S.Staged, n, 0, 0, None, false, false)], []),
      ring := Ring([Raw(n + 1)], [Sqe(n + 1, Caller(0, n))], Inflight(n), [], []))
  }

  lemma Staged(cfg: Config, n: nat, of: nat)
    requires n < of && cfg.entries > 0 && Leads(Init(cfg), World(cfg, Underway(n, of), Taking(n, false)))
    ensures Leads(Init(cfg), InSq(cfg, n, Cursor(Zeros(of), n + 1, None, true), false))
  {
    hide Originals;
    hide Inflight;
    hide Leads;
    var l := World(cfg, Underway(n, of), Taking(n, false));
    LeadsOn(Init(cfg), l, DoStageOriginal(0, n + 1));
    assert Apply(l, DoStageOriginal(0, n + 1)).value == InSq(cfg, n, Cursor(Zeros(of), n + 1, None, true), false);
  }

  /** The iterator is asked for the next entry. */
  lemma Asked(cfg: Config, n: nat, of: nat)
    requires n < of && Leads(Init(cfg), InSq(cfg, n, Cursor(Zeros(of), n + 1, None, true), false))
    ensures Leads(Init(cfg), InSq(cfg, n, CursorAt(n + 1, of), n + 1 == of))
  {
    hide Originals;
    hide Inflight;
    hide Leads;
    var l := InSq(cfg, n, Cursor(Zeros(of), n + 1, None, true), false);
    var next := if n + 1 < of then DoYield(0) else DoFinishIterator(0);
    LeadsOn(Init(cfg), l, next);
    assert Apply(l, next).value == InSq(cfg, n, CursorAt(n + 1, of), n + 1 == of);
  }

  lemma OneMore(n: nat)
    ensures Originals(n + 1, 0, 0) == Originals(n, 0, 0)[n + 1 := RawContext(Original, S.Submitted, n, 0, 0, None, false, false)]
    ensures Inflight(n + 1) == Inflight(n)[n + 1 := Caller(0, n)]
  {
  }

  /** The kernel takes what is staged. */
  lemma Taken(cfg: Config, n: nat, c: Cursor, finished: bool)
    requires Leads(Init(cfg), InSq(cfg, n, c, finished))
    ensures Leads(Init(cfg), World(cfg, Scene(n + 1, 0, 0, c, OpenFlags()), Taking(n + 1, finished)))
  {
    hide Leads;
    hide Originals;
    hide Inflight;
    var l := InSq(cfg, n, c, finished);
    LeadsOn(Init(cfg), l, DoAccept);
    OneMore(n);
    assert l.raw.contexts[n + 1 := l.raw.contexts[n + 1].(phase := S.Submitted)] == Originals(n + 1, 0, 0);
    assert Apply(l, DoAccept).value == World(cfg, Scene(n + 1, 0, 0, c, OpenFlags()), Taking(n + 1, finished));
  }

  lemma {:induction false} TakenAll(cfg: Config, n: nat, of: nat)
    requires n <= of && of > 0 && cfg.entries > 0
    ensures Leads(Init(cfg), World(cfg, Underway(n, of), Taking(n, n == of)))
  {
    hide Leads;
    hide World;
    hide InSq;
    hide CursorAt;
    if n == 0 {
      Registered(cfg, of);
    } else {
      TakenAll(cfg, n - 1, of);
      Staged(cfg, n - 1, of);
      Asked(cfg, n - 1, of);
      Taken(cfg, n - 1, CursorAt(n, of), n == of);
    }
  }

  lemma Delivers(cfg: Config, n: nat)
    requires n > 0 && cfg.entries > 0
    ensures Leads(Init(cfg), World(cfg, Streaming(n), Taking(n, true)))
  {
    hide Leads;
    TakenAll(cfg, n, n);
    LeadsOn(Init(cfg), World(cfg, Underway(n, n), Taking(n, true)), DoCloseCursor(0));
    assert Apply(World(cfg, Underway(n, n), Taking(n, true)), DoCloseCursor(0)).value == World(cfg, Streaming(n), Taking(n, true));
  }

  // ----- Steps of the stream, of the driver and of the kernel ---------------------------------------------------

  lemma Polled(cfg: Config, from: Ledger, s: Scene, st: Sub.Submission)
    requires Leads(from, World(cfg, s, st)) && st.iteratorFinished
    ensures Leads(from, World(cfg, s, Sub.PollNext(st).0))
  {
    hide Leads;
    hide Sub.PollNext;
    LeadsOn(from, World(cfg, s, st), DoPollNext(0));
    assert Apply(World(cfg, s, st), DoPollNext(0)).value == World(cfg, s, Sub.PollNext(st).0);
  }

  lemma PolledCancel(cfg: Config, from: Ledger, s: Scene, st: Sub.Submission)
    requires Leads(from, World(cfg, s, st))
    ensures Leads(from, World(cfg, s, Sub.PollNextCancel(st).0))
  {
    hide Leads;
    hide Sub.PollNextCancel;
    LeadsOn(from, World(cfg, s, st), DoPollNextCancel(0));
    assert Apply(World(cfg, s, st), DoPollNextCancel(0)).value == World(cfg, s, Sub.PollNextCancel(st).0);
  }

  lemma Requested(cfg: Config, from: Ledger, s: Scene, st: Sub.Submission, d: Sub.Delivery)
    requires Leads(from, World(cfg, s, st)) && d != Sub.Open
    ensures Leads(from, World(cfg, s, Sub.RequestDelivery(st, d)))
  {
    hide Leads;
    hide Sub.RequestDelivery;
    LeadsOn(from, World(cfg, s, st), DoRequestDelivery(0, d));
    assert Apply(World(cfg, s, st), DoRequestDelivery(0, d)).value == World(cfg, s, Sub.RequestDelivery(st, d));
  }

  lemma {:induction false} CommandsPush(queued: nat, seen: nat)
    requires seen <= queued
    ensures Commands(queued + 1, seen) == Commands(queued, seen) + [CancelCommand(queued + 1, queued, 0, 0)]
    decreases queued - seen
  {
    if seen < queued {
      CommandsPush(queued, seen + 1);
    } else {
      assert Commands(queued + 1, queued + 1) == [];
    }
  }

  lemma OneTargeted(n: nat, queued: nat)
    requires queued < n
    ensures queued + 1 in Originals(n, queued, 0)
    ensures Originals(n, queued + 1, 0) == Originals(n, queued, 0)[queued + 1 := Box(queued + 1, queued + 1, 0)]
  {
    hide Originals;
  }

  lemma Targeted(cfg: Config, from: Ledger, s: Scene, st: Sub.Submission)
    requires Leads(from, World(cfg, s, st)) && s.seen == 0 && s.queued < s.n
    ensures Leads(from, World(cfg, s.(queued := s.queued + 1), CountCancels(st)))
  {
    hide Leads;
    hide Originals;
    hide Inflight;
    hide Commands;
    var l := World(cfg, s, st);
    OneTargeted(s.n, s.queued);
    LeadsOn(from, l, DoQueueCancel(s.queued + 1));
    CommandsPush(s.queued, 0);
    assert l.raw.contexts[s.queued + 1].(cancelQueued := true) == Box(s.queued + 1, s.queued + 1, 0);
    assert Apply(l, DoQueueCancel(s.queued + 1)).value == World(cfg, s.(queued := s.queued + 1), CountCancels(st));
  }

  /** The kernel posts a CQE and the driver reaps it. */
  lemma Reaped(from: Ledger, l: Ledger, c: S.Cqe)
    requires Leads(from, l) && Unlocked(l) && l.ring.cq == [] && l.ring.batch == [] && CanPost(l, c)
    ensures Leads(from, Post(l, c).(ring := Post(l, c).ring.(cq := [], batch := [c])))
  {
    hide Leads;
    LeadsOn(from, l, DoPost(c));
    LeadsOn(from, Post(l, c), DoReap(1));
    assert Post(l, c).ring.cq[..1] == [c];
    assert Apply(Post(l, c), DoReap(1)).value == Post(l, c).(ring := Post(l, c).ring.(cq := [], batch := [c]));
  }

  /** One more completion of the first original, which goes on. */
  lemma Arrives(cfg: Config, from: Ledger, s: Scene, st: Sub.Submission)
    requires Leads(from, World(cfg, s, st)) && s.n > 0
    ensures Leads(from, World(cfg, s, Sub.OnOriginal(st, Sub.Completion(0, 0, 0, true), cfg.limit)))
  {
    hide Leads;
    hide Sub.OnOriginal;
    var l, c := World(cfg, s, st), S.Cqe(1, 0, true);
    Reaped(from, l, c);
    var m := Post(l, c).(ring := Post(l, c).ring.(cq := [], batch := [c]));
    LeadsOn(from, m, DoDispatch);
    assert Apply(m, DoDispatch).value == World(cfg, s, Sub.OnOriginal(st, Sub.Completion(0, 0, 0, true), cfg.limit));
  }

  /** The oldest cancellation command is in the SQ, or in the kernel if `phase` says so. */
  function Cancelling(cfg: Config, s: Scene, st: Sub.Submission, phase: S.Phase, ring: Ring): Ledger {
    World(cfg, s, st).(
      raw := RawSide(Originals(s.n, s.queued, s.seen)[s.n + 1 :=
                       RawContext(Cancel, phase, s.seen, 0, 0, Some(s.seen + 1), false, false)],
                     Commands(s.queued, s.seen + 1)),
      ring := ring)
  }

  function CancelStaged(s: Scene): Ring {
    Ring([Raw(s.n + 1)], [Sqe(s.n + 1, AsyncCancel(s.seen + 1))], Inflight(s.n), [], [])
  }

  function CancelTaken(s: Scene): Ring {
    Ring([], [], Inflight(s.n)[s.n + 1 := AsyncCancel(s.seen + 1)], [], [])
  }

  function CancelReaped(s: Scene): Ring {
    Ring([], [], Inflight(s.n), [], [S.Cqe(s.n + 1, 0, false)])
  }

  lemma CancelGoesOut(cfg: Config, from: Ledger, s: Scene, st: Sub.Submission)
    requires Leads(from, World(cfg, s, st)) && s.seen < s.queued <= s.n && cfg.entries > 0
    ensures Leads(from, Cancelling(cfg, s, st, S.Staged, CancelStaged(s)))
  {
    hide Originals;
    hide Inflight;
    hide Leads;
    var l := World(cfg, s, st);
    LeadsOn(from, l, DoStageCancel(s.n + 1));
    assert Apply(l, DoStageCancel(s.n + 1)).value == Cancelling(cfg, s, st, S.Staged, CancelStaged(s));
  }

  lemma CancelComesBack(cfg: Config, from: Ledger, s: Scene, st: Sub.Submission)
    requires Leads(from, Cancelling(cfg, s, st, S.Staged, CancelStaged(s)))
    ensures Leads(from, Cancelling(cfg, s, st, S.Submitted, CancelReaped(s)))
  {
    hide Leads;
    hide Originals;
    hide Commands;
    var l := Cancelling(cfg, s, st, S.Staged, CancelStaged(s));
    LeadsOn(from, l, DoAccept);
    var m := Cancelling(cfg, s, st, S.Submitted, CancelTaken(s));
    assert Apply(l, DoAccept).value == m;
    var c := S.Cqe(s.n + 1, 0, false);
    Reaped(from, m, c);
    assert m.ring.inflight - {s.n + 1} == Inflight(s.n);
    assert Post(m, c).(ring := Post(m, c).ring.(cq := [], batch := [c])) == Cancelling(cfg, s, st, S.Submitted, CancelReaped(s));
  }

  lemma OneSeen(s: Scene, x: RawContext)
    requires s.seen < s.queued <= s.n && x.kind == Cancel
    ensures s.seen + 1 in Originals(s.n, s.queued, s.seen)
    ensures RetireCancel(Originals(s.n, s.queued, s.seen)[s.n + 1 := x], s.n + 1, s.seen + 1)
            == Originals(s.n, s.queued, s.seen + 1)
  {
    assert Originals(s.n, s.queued, s.seen)[s.n + 1 := x] - {s.n + 1} == Originals(s.n, s.queued, s.seen);
  }

  /** The CQE finds its cancellation and its target. */
  lemma CancelMatches(cfg: Config, s: Scene, st: Sub.Submission)
    requires s.seen < s.queued <= s.n
    ensures var l := Cancelling(cfg, s, st, S.Submitted, CancelReaped(s));
            && s.seen + 1 in l.raw.contexts && Enabled(l, DoDispatch)
            && Apply(l, DoDispatch) == Done(DispatchCancel(l, S.Cqe(s.n + 1, 0, false)))
  {
    hide Originals;
    hide Inflight;
    hide Commands;
    hide DispatchCancel;
  }

  lemma CancelDispatched(cfg: Config, from: Ledger, s: Scene, st: Sub.Submission)
    requires Leads(from, Cancelling(cfg, s, st, S.Submitted, CancelReaped(s))) && s.seen < s.queued <= s.n
    ensures Leads(from, World(cfg, s.(seen := s.seen + 1), Sub.OnCancel(st, Sub.Completion(s.seen, 0, 0, false), cfg.limit)))
  {
    hide Leads;
    hide Enabled;
    hide Apply;
    hide Sub.OnCancel;
    hide Originals;
    hide Inflight;
    hide Commands;
    hide RetireCancel;
    var l := Cancelling(cfg, s, st, S.Submitted, CancelReaped(s));
    CancelMatches(cfg, s, st);
    OneSeen(s, l.raw.contexts[s.n + 1]);
    LeadsOn(from, l, DoDispatch);
    assert DispatchCancel(l, S.Cqe(s.n + 1, 0, false))
        == World(cfg, s.(seen := s.seen + 1), Sub.OnCancel(st, Sub.Completion(s.seen, 0, 0, false), cfg.limit));
  }

  /** A cancellation goes through the kernel and its CQE is dispatched. */
  lemma CancelDone(cfg: Config, from: Ledger, s: Scene, st: Sub.Submission)
    requires Leads(from, World(cfg, s, st)) && s.seen < s.queued <= s.n && cfg.entries > 0
    ensures Leads(from, World(cfg, s.(seen := s.seen + 1), Sub.OnCancel(st, Sub.Completion(s.seen, 0, 0, false), cfg.limit)))
  {
    hide Leads;
    hide World;
    hide Cancelling;
    CancelGoesOut(cfg, from, s, st);
    CancelComesBack(cfg, from, s, st);
    CancelDispatched(cfg, from, s, st);
  }

  // ----- The cancellation buffer overflows again and again --------------------------------------------------------

  /** Every original is targeted. */
  lemma {:induction false} AllTargeted(cfg: Config, from: Ledger, s: Scene, st: Sub.Submission) returns (st': Sub.Submission)
    requires Leads(from, World(cfg, s, st)) && s.seen == 0 && s.queued <= s.n
    ensures Leads(from, World(cfg, s.(queued := s.n), st')) && st'.buffers == st.buffers
    decreases s.n - s.queued
  {
    hide Leads;
    hide World;
    st' := st;
    if s.queued < s.n {
      Targeted(cfg, from, s, st);
      st' := AllTargeted(cfg, from, s.(queued := s.queued + 1), CountCancels(st));
    }
  }

  /** `k` cancellations end while there is room for their CQEs. */
  lemma {:induction false} Fills(cfg: Config, from: Ledger, s: Scene, st: Sub.Submission, k: nat) returns (st': Sub.Submission)
    requires Leads(from, World(cfg, s, st)) && s.seen + k <= s.queued <= s.n && cfg.entries > 0
    requires st.buffers.delivery == Sub.Cancelling && |st.buffers.cancellations| + k <= cfg.limit
    ensures Leads(from, World(cfg, s.(seen := s.seen + k), st')) && st'.buffers.delivery == Sub.Cancelling
    ensures |st'.buffers.cancellations| == |st.buffers.cancellations| + k
    ensures st'.buffers.cancelOverflow == st.buffers.cancelOverflow
    decreases k
  {
    hide Leads;
    hide World;
    st' := st;
    if k > 0 {
      CancelDone(cfg, from, s, st);
      st' := Fills(cfg, from, s.(seen := s.seen + 1), Sub.OnCancel(st, Sub.Completion(s.seen, 0, 0, false), cfg.limit), k - 1);
    }
  }

  /** The caller takes every buffered cancellation CQE. */
  lemma {:induction false} Empties(cfg: Config, from: Ledger, s: Scene, st: Sub.Submission) returns (st': Sub.Submission)
    requires Leads(from, World(cfg, s, st))
    ensures Leads(from, World(cfg, s, st')) && st'.buffers == st.buffers.(cancellations := [])
    decreases |st.buffers.cancellations|
  {
    hide Leads;
    hide World;
    st' := st;
    if st.buffers.cancellations != [] {
      PolledCancel(cfg, from, s, st);
      st' := Empties(cfg, from, s, Sub.PollNextCancel(st).0);
    }
  }

  /** From an empty buffer, one cancellation CQE more than it holds, and then a caller that reads up to the report. */
  lemma OverflowsOnce(cfg: Config, from: Ledger, s: Scene, st: Sub.Submission) returns (st': Sub.Submission)
    requires Leads(from, World(cfg, s, st)) && s.seen + cfg.limit + 1 <= s.queued <= s.n && cfg.entries > 0
    requires st.buffers.delivery == Sub.Cancelling && st.buffers.cancellations == []
    ensures Leads(from, World(cfg, s.(seen := s.seen + cfg.limit + 1), st'))
    ensures st'.buffers == Sub.Buffers(Sub.Cancelling, st'.buffers.normal, [], st'.buffers.normalOverflow, true)
  {
    hide Leads;
    hide World;
    st' := Fills(cfg, from, s, st, cfg.limit);
    var full := s.(seen := s.seen + cfg.limit);
    CancelDone(cfg, from, full, st');
    st' := Sub.OnCancel(st', Sub.Completion(full.seen, 0, 0, false), cfg.limit);
    st' := Empties(cfg, from, full.(seen := full.seen + 1), st');
  }

  /** All originals of a stream are in the kernel, the stream is cancelled and every original targeted. */
  lemma CancelledStream(cfg: Config, n: nat) returns (st: Sub.Submission)
    requires n > 0 && cfg.entries > 0
    ensures Leads(Init(cfg), World(cfg, Streaming(n).(queued := n), st))
    ensures st.buffers == Sub.Buffers(Sub.Cancelling, [], [], false, false)
  {
    hide Leads;
    hide World;
    Delivers(cfg, n);
    Requested(cfg, Init(cfg), Streaming(n), Taking(n, true), Sub.Cancelling);
    st := AllTargeted(cfg, Init(cfg), Streaming(n), Sub.RequestDelivery(Taking(n, true), Sub.Cancelling));
  }

  /**
    Overflow of the cancellation buffer is not reported once only, whatever the configuration: a run
    whose caller reads up to the report, and a continuation from there in which the buffer overflows
    and is reported again.
   */
  lemma CancelOverflowRepeats(cfg: Config) returns (l: Ledger, m: Ledger)
    requires cfg.limit > 0 && cfg.entries > 0
    ensures Leads(Init(cfg), l) && 0 in l.subs
    ensures Sub.PollNextCancel(l.subs[0]).1 == Sub.Ready(Some(Sub.BufferOverflow))
    ensures Leads(SetSub(l, 0, Sub.PollNextCancel(l.subs[0]).0), m) && 0 in m.subs
    ensures Sub.PollNextCancel(m.subs[0]).1 == Sub.Ready(Some(Sub.BufferOverflow))
  {
    hide Originals;
    hide Inflight;
    hide Commands;
    hide Leads;
    var n := 2 * cfg.limit + 2;
    var s := Streaming(n).(queued := n);
    var st := CancelledStream(cfg, n);
    st := OverflowsOnce(cfg, Init(cfg), s, st);
    s := s.(seen := cfg.limit + 1);
    l := World(cfg, s, st);
    var next := Sub.PollNextCancel(st).0;
    assert SetSub(l, 0, next) == World(cfg, s, next);
    LeadsNowhere(World(cfg, s, next));
    st := OverflowsOnce(cfg, World(cfg, s, next), s, next);
    m := World(cfg, s.(seen := n), st);
  }

  // ----- A stream that ends before its originals --------------------------------------------------------------------

  /** `k` completions of the first original arrive while there is room for them. */
  lemma {:induction false} Collects(cfg: Config, s: Scene, st: Sub.Submission, k: nat) returns (st': Sub.Submission)
    requires Leads(Init(cfg), World(cfg, s, st)) && s.n > 0
    requires st.buffers.delivery == Sub.Open && |st.buffers.normal| + k <= cfg.limit
    ensures Leads(Init(cfg), World(cfg, s, st'))
    ensures st'.buffers == st.buffers.(normal := st'.buffers.normal) && |st'.buffers.normal| == |st.buffers.normal| + k
    ensures st'.counts == st.counts && st'.iteratorFinished == st.iteratorFinished
    decreases k
  {
    hide Leads;
    hide World;
    st' := st;
    if k > 0 {
      Arrives(cfg, Init(cfg), s, st);
      st' := Collects(cfg, s, Sub.OnOriginal(st, Sub.Completion(0, 0, 0, true), cfg.limit), k - 1);
    }
  }

  /** The caller takes every buffered completion. */
  lemma {:induction false} Consumes(cfg: Config, s: Scene, st: Sub.Submission) returns (st': Sub.Submission)
    requires Leads(Init(cfg), World(cfg, s, st)) && st.iteratorFinished
    ensures Leads(Init(cfg), World(cfg, s, st')) && st'.buffers == st.buffers.(normal := [])
    ensures st'.counts == st.counts && st'.iteratorFinished
    decreases |st.buffers.normal|
  {
    hide Leads;
    hide World;
    st' := st;
    if st.buffers.normal != [] {
      Polled(cfg, Init(cfg), s, st);
      st' := Consumes(cfg, s, Sub.PollNext(st).0);
    }
  }

  lemma FirstAlive(cfg: Config, s: Scene, st: Sub.Submission)
    requires s.n > 0
    ensures Alive(World(cfg, s, st).raw, 0)
  {
    assert A.OriginalOf(Originals(s.n, s.queued, s.seen), 1, 0);
  }

  /**
    The stream of one multishot operation that overflowed: the driver has requested its cancellation,
    and the caller has read everything and the report.
   */
  lemma OverflowedStream(cfg: Config) returns (s: Scene, st: Sub.Submission)
    requires cfg.entries > 0
    ensures Leads(Init(cfg), World(cfg, s, st)) && s.n == 1 && st.iteratorFinished
    ensures st.buffers.delivery == Sub.Overflow && st.buffers.normal == [] && !st.buffers.normalOverflow
  {
    hide Leads;
    hide World;
    s, st := Streaming(1), Taking(1, true);
    Delivers(cfg, 1);
    st := Collects(cfg, s, st, cfg.limit);
    Arrives(cfg, Init(cfg), s, st);
    st := Sub.OnOriginal(st, Sub.Completion(0, 0, 0, true), cfg.limit);
    Requested(cfg, Init(cfg), s, st, Sub.Overflow);
    st := Sub.RequestDelivery(st, Sub.Overflow);
    Targeted(cfg, Init(cfg), s, st);
    s, st := s.(queued := 1), CountCancels(st);
    st := Consumes(cfg, s, st);
    Polled(cfg, Init(cfg), s, st);
    st := Sub.PollNext(st).0;
  }

  /** After an overflow the stream answers `None` although its original is still in the kernel. */
  lemma NoneAfterOverflow(cfg: Config) returns (l: Ledger)
    requires cfg.limit > 0 && cfg.entries > 0
    ensures Leads(Init(cfg), l) && 0 in l.subs && l.subs[0].iteratorFinished && l.subs[0].buffers.delivery == Sub.Overflow
    ensures Sub.PollNext(l.subs[0]).1 == Sub.Ready(None) && Alive(l.raw, 0)
  {
    hide Leads;
    var s, st := OverflowedStream(cfg);
    FirstAlive(cfg, s, st);
    l := World(cfg, s, st);
  }

  /**
    Shutdown detaches a stream whose task sleeps: nobody wakes the task, although its poll would
    answer, and that answer is `None` although the original is still in the kernel.
   */
  lemma NoneAfterDetach(cfg: Config) returns (l: Ledger)
    requires cfg.limit > 0 && cfg.entries > 0
    ensures Leads(Init(cfg), l) && 0 in l.subs && l.subs[0].iteratorFinished && l.subs[0].buffers.delivery == Sub.Detached
    ensures Sub.PollNext(l.subs[0]).1 == Sub.Ready(None) && Alive(l.raw, 0)
    ensures StreamLost(l.subs[0])
  {
    hide Leads;
    Delivers(cfg, 1);
    Polled(cfg, Init(cfg), Streaming(1), Taking(1, true));
    var st := Sub.PollNext(Taking(1, true)).0;
    var s := ShutDown(cfg, Streaming(1), st);
    Requested(cfg, Init(cfg), s, st, Sub.Detached);
    st := Sub.RequestDelivery(st, Sub.Detached);
    FirstAlive(cfg, s, st);
    l := World(cfg, s, st);
  }

  /** A cancelled stream of one entry whose caller waits for the cancellation CQE. */
  lemma CancelAwaited(cfg: Config) returns (st: Sub.Submission)
    requires cfg.entries > 0
    ensures Leads(Init(cfg), World(cfg, Streaming(1).(queued := 1), st))
    ensures CancelWaits(st) && st.buffers == Sub.Buffers(Sub.Cancelling, [], [], false, false)
    ensures st.counts.cancels == 1 && st.counts.cancelTerminal == 0
  {
    hide Leads;
    hide World;
    Delivers(cfg, 1);
    Requested(cfg, Init(cfg), Streaming(1), Taking(1, true), Sub.Cancelling);
    st := Sub.RequestDelivery(Taking(1, true), Sub.Cancelling);
    Targeted(cfg, Init(cfg), Streaming(1), st);
    st := CountCancels(st);
    PolledCancel(cfg, Init(cfg), Streaming(1).(queued := 1), st);
    st := Sub.PollNextCancel(st).0;
  }

  /**
    Shutdown detaches a submission whose caller waits for a cancellation CQE: even when the CQE has come
    and the poll would answer, nobody has woken the task.
   */
  lemma CancelAfterDetach(cfg: Config) returns (l: Ledger)
    requires cfg.limit > 0 && cfg.entries > 0
    ensures Leads(Init(cfg), l) && 0 in l.subs && l.subs[0].buffers.delivery == Sub.Detached
    ensures CancelLost(l.subs[0]) && Sub.PollNextCancel(l.subs[0]).1 == Sub.Ready(None)
  {
    hide Leads;
    var st := CancelAwaited(cfg);
    var s := ShutDown(cfg, Streaming(1).(queued := 1), st);
    Requested(cfg, Init(cfg), s, st, Sub.Detached);
    st := Sub.RequestDelivery(st, Sub.Detached);
    CancelDone(cfg, Init(cfg), s, st);
    st := Sub.OnCancel(st, Sub.Completion(0, 0, 0, false), cfg.limit);
    l := World(cfg, s.(seen := 1), st);
  }

  lemma ShutDown(cfg: Config, s: Scene, st: Sub.Submission) returns (s': Scene)
    requires Leads(Init(cfg), World(cfg, s, st)) && !s.flags.shutdown
    ensures Leads(Init(cfg), World(cfg, s', st)) && s' == s.(flags := s'.flags) && s'.flags.shutdown
  {
    hide Leads;
    hide Originals;
    var l := World(cfg, s, st);
    LeadsOn(Init(cfg), l, DoCloseAdmission);
    var m := Apply(l, DoCloseAdmission).value;
    LeadsOn(Init(cfg), m, DoShutdown);
    s' := s.(flags := Apply(m, DoShutdown).value.flags);
    assert Apply(m, DoShutdown).value == World(cfg, s', st);
  }
}
