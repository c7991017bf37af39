/** Every step of the ledger keeps the books of the raw side. */
module BookSteps {
  import opened Prelude
  import opened Ledger
  import opened Shape
  import opened Accounts
  import S = Slots
  import P = Pairs
  import C = CoreSteps
  import Sub = Submission

  // ----- Other submissions ----------------------------------------------------------------------------

  /** A step changes nothing that belongs to `sub`. */
  ghost predicate Elsewhere(rc: map<Addr, RawContext>, rd: map<Addr, RawContext>, sub: SubId) {
    && (forall p | p in rc && rc[p].sub == sub :: p in rd && rd[p] == rc[p])
    && (forall p | p in rd && rd[p].sub == sub :: p in rc && rd[p] == rc[p])
  }

  lemma ElsewhereCounts(rc: map<Addr, RawContext>, rd: map<Addr, RawContext>, sub: SubId)
    requires Elsewhere(rc, rd, sub)
    ensures Count(rd, StagedOf(sub)) == Count(rc, StagedOf(sub))
    ensures Count(rd, SubmittedOf(sub)) == Count(rc, SubmittedOf(sub))
    ensures Count(rd, CancelOf(sub)) == Count(rc, CancelOf(sub))
  {
    assert Members(rd, StagedOf(sub)) == Members(rc, StagedOf(sub));
    assert Members(rd, SubmittedOf(sub)) == Members(rc, SubmittedOf(sub));
    assert Members(rd, CancelOf(sub)) == Members(rc, CancelOf(sub));
  }

  lemma {:induction false} ElsewhereWaiting(
    staged: seq<StagedContext>, rc: map<Addr, RawContext>, rd: map<Addr, RawContext>, sub: SubId)
    requires Elsewhere(rc, rd, sub)
    ensures Waiting(staged, rd, sub) == Waiting(staged, rc, sub)
  {
    if staged != [] {
      ElsewhereWaiting(staged[1..], rc, rd, sub);
    }
  }

  lemma ElsewhereEntries(rc: map<Addr, RawContext>, rd: map<Addr, RawContext>, sub: SubId, entries: seq<nat>,
                         originals: nat, arrived: seq<Sub.Completion>)
    requires Elsewhere(rc, rd, sub) && EntriesOk(rc, sub, entries, originals) && FinalOk(arrived, rc, sub)
    ensures EntriesOk(rd, sub, entries, originals) && FinalOk(arrived, rd, sub)
  {
    assert forall p | OriginalOf(rd, p, sub) :: OriginalOf(rc, p, sub) && rd[p] == rc[p];
  }

  lemma ElsewhereBooked(raw: RawSide, staged: seq<StagedContext>, raw': RawSide, staged': seq<StagedContext>,
                        sub: SubId, st: Sub.Submission, c: Cursor, limit: nat)
    requires SubBooked(raw, staged, sub, st, c, limit)
    requires Elsewhere(raw.contexts, raw'.contexts, sub)
    requires CommandsOf(raw'.cancelQueue, sub) == CommandsOf(raw.cancelQueue, sub)
    requires Waiting(staged', raw'.contexts, sub) == Waiting(staged, raw'.contexts, sub)
    ensures SubBooked(raw', staged', sub, st, c, limit)
  {
    ElsewhereCounts(raw.contexts, raw'.contexts, sub);
    ElsewhereWaiting(staged, raw.contexts, raw'.contexts, sub);
    ElsewhereEntries(raw.contexts, raw'.contexts, sub, c.entries, st.counts.originals, st.history.arrived);
  }

  /** A step leaves the boxes, commands and SQ entries of `sub` as they were. */
  ghost predicate Apart(raw: RawSide, staged: seq<StagedContext>, raw': RawSide, staged': seq<StagedContext>, sub: SubId) {
    && Elsewhere(raw.contexts, raw'.contexts, sub)
    && CommandsOf(raw'.cancelQueue, sub) == CommandsOf(raw.cancelQueue, sub)
    && Waiting(staged', raw'.contexts, sub) == Waiting(staged, raw'.contexts, sub)
  }

  /** A step that concerns one submission keeps the books if it keeps those of that one. */
  lemma OneBooked(raw: RawSide, staged: seq<StagedContext>, subs: map<SubId, Sub.Submission>, cursors: map<SubId, Cursor>,
                  limit: nat, raw': RawSide, staged': seq<StagedContext>, sub: SubId, st': Sub.Submission, c': Cursor)
    requires AllBooked(raw, staged, subs, cursors, limit) && sub in subs
    requires SubBooked(raw', staged', sub, st', c', limit)
    requires forall s | s in subs && s != sub :: Apart(raw, staged, raw', staged', s)
    ensures AllBooked(raw', staged', subs[sub := st'], cursors[sub := c'], limit)
  {
    hide SubBooked;
    forall s | s in subs && s != sub
      ensures SubBooked(raw', staged', s, subs[s], cursors[s], limit)
    {
      ElsewhereBooked(raw, staged, raw', staged', s, subs[s], cursors[s], limit);
    }
  }

  // ----- Steps that touch one submission and no box ---------------------------------------------------

  /** `st'` differs from `st` only in buffers and waiters. */
  ghost predicate Quiet(st: Sub.Submission, st': Sub.Submission) {
    st'.counts == st.counts && st'.history.arrived == st.history.arrived && st'.iteratorFinished == st.iteratorFinished
  }

  lemma QuietBooked(raw: RawSide, staged: seq<StagedContext>, sub: SubId, st: Sub.Submission, st': Sub.Submission,
                    c: Cursor, limit: nat)
    requires SubBooked(raw, staged, sub, st, c, limit) && Quiet(st, st') && Sub.Ok(st', limit)
    ensures SubBooked(raw, staged, sub, st', c, limit)
  {
  }

  /** Nothing waits and nothing exists for a new submission. */
  lemma NewBooked(raw: RawSide, staged: seq<StagedContext>, sub: SubId, entries: seq<nat>, limit: nat)
    requires forall p | p in raw.contexts :: raw.contexts[p].sub != sub
    requires forall i | 0 <= i < |raw.cancelQueue| :: raw.cancelQueue[i].sub != sub
    ensures SubBooked(raw, staged, sub, Sub.New(), Cursor(entries, 0, None, true), limit)
  {
    assert Members(raw.contexts, StagedOf(sub)) == {};
    assert Members(raw.contexts, SubmittedOf(sub)) == {};
    assert Members(raw.contexts, CancelOf(sub)) == {};
    CommandsZero(raw.cancelQueue, sub);
    NoneWaiting(staged, raw.contexts, sub);
  }

  lemma {:induction false} NoneWaiting(staged: seq<StagedContext>, rc: map<Addr, RawContext>, sub: SubId)
    requires forall p | p in rc :: rc[p].sub != sub
    ensures Waiting(staged, rc, sub) == []
  {
    if staged != [] {
      NoneWaiting(staged[1..], rc, sub);
    }
  }

  /** The books of one submission change and nothing else does. */
  lemma PutBooked(l: Ledger, sub: SubId, st': Sub.Submission, c': Cursor)
    requires Booked(l) && l.subs.Keys == l.cursors.Keys
    requires SubBooked(l.raw, l.ring.staged, sub, st', c', l.cfg.limit)
    ensures Booked(l.(subs := l.subs[sub := st'], cursors := l.cursors[sub := c']))
  {
    hide SubBooked;
    hide CopiesOk;
  }

  lemma Known(l: Ledger)
    requires Booked(l)
    ensures l.subs.Keys == l.cursors.Keys
    ensures forall sub | sub in l.subs :: SubBooked(l.raw, l.ring.staged, sub, l.subs[sub], l.cursors[sub], l.cfg.limit)
  {
    hide SubBooked;
    hide CopiesOk;
  }

  lemma RegisterBooked(l: Ledger, sub: SubId, entries: seq<nat>)
    requires Booked(l) && sub !in l.subs && sub !in l.cursors && RawShape(l.raw.contexts, l.subs.Keys)
    ensures Booked(Register(l, sub, entries))
  {
    assert forall i | 0 <= i < |l.raw.cancelQueue| :: l.raw.cancelQueue[i].sub in l.subs.Keys;
    hide SubBooked;
    hide AllBooked;
    hide CopiesOk;
    NewBooked(l.raw, l.ring.staged, sub, entries, l.cfg.limit);
    Known(l);
    PutBooked(l, sub, Sub.New(), Cursor(entries, 0, None, true));
  }

  lemma SetSubBooked(l: Ledger, sub: SubId, st': Sub.Submission)
    requires Booked(l) && sub in l.subs && sub in l.cursors && Quiet(l.subs[sub], st') && Sub.Ok(st', l.cfg.limit)
    ensures Booked(SetSub(l, sub, st'))
  {
    hide SubBooked;
    hide Booked;
    Known(l);
    QuietBooked(l.raw, l.ring.staged, sub, l.subs[sub], st', l.cursors[sub], l.cfg.limit);
    PutBooked(l, sub, st', l.cursors[sub]);
    SelfPut(l.cursors, sub);
  }

  lemma FinishIteratorOwn(raw: RawSide, staged: seq<StagedContext>, sub: SubId, st: Sub.Submission, c: Cursor, limit: nat)
    requires SubBooked(raw, staged, sub, st, c, limit) && c.active && c.pending.None? && c.next == |c.entries|
    ensures SubBooked(raw, staged, sub, FinishIterator(st), c, limit)
  {
    hide AccountOk;
    hide InOrder;
    hide EntriesOk;
    hide ArrivalOk;
    hide FinalOk;
  }

  lemma FinishIteratorBooked(l: Ledger, sub: SubId)
    requires Booked(l) && CanFinishIterator(l, sub)
    ensures Booked(SetSub(l, sub, FinishIterator(l.subs[sub])))
  {
    hide SubBooked;
    hide Booked;
    Known(l);
    FinishIteratorOwn(l.raw, l.ring.staged, sub, l.subs[sub], l.cursors[sub], l.cfg.limit);
    PutBooked(l, sub, FinishIterator(l.subs[sub]), l.cursors[sub]);
    SelfPut(l.cursors, sub);
  }

  /** Only the cursor moves, and it stays where the books say. */
  lemma SetCursorBooked(l: Ledger, sub: SubId, c': Cursor)
    requires Booked(l) && HasSub(l, sub) && c'.entries == l.cursors[sub].entries
    requires CursorOk(l.cursors[sub], l.subs[sub]) ==> CursorOk(c', l.subs[sub])
    ensures Booked(SetCursor(l, sub, c'))
  {
    hide Booked;
    Known(l);
    MoveCursor(l.raw, l.ring.staged, sub, l.subs[sub], l.cursors[sub], c', l.cfg.limit);
    hide SubBooked;
    PutBooked(l, sub, l.subs[sub], c');
    SelfPut(l.subs, sub);
  }

  lemma MoveCursor(raw: RawSide, staged: seq<StagedContext>, sub: SubId, st: Sub.Submission, c: Cursor, c': Cursor, limit: nat)
    requires SubBooked(raw, staged, sub, st, c, limit) && c'.entries == c.entries
    requires CursorOk(c, st) ==> CursorOk(c', st)
    ensures SubBooked(raw, staged, sub, st, c', limit)
  {
    hide AccountOk;
    hide InOrder;
    hide EntriesOk;
    hide ArrivalOk;
    hide FinalOk;
    hide Sub.Ok;
  }

  lemma YieldBooked(l: Ledger, sub: SubId)
    requires Booked(l) && CanYield(l, sub)
    ensures Booked(SetCursor(l, sub, Yield(l.cursors[sub])))
  {
    hide Booked;
    SetCursorOk(l, sub);
    SetCursorBooked(l, sub, Yield(l.cursors[sub]));
  }

  /** An iterator that still yields has not been declared finished. */
  lemma SetCursorOk(l: Ledger, sub: SubId)
    requires Booked(l) && CanYield(l, sub)
    ensures !l.subs[sub].iteratorFinished
  {
    hide Booked;
    Known(l);
    assert CursorOk(l.cursors[sub], l.subs[sub]);
  }

  lemma CloseCursorBooked(l: Ledger, sub: SubId)
    requires Booked(l) && HasSub(l, sub)
    ensures Booked(SetCursor(l, sub, l.cursors[sub].(active := false, pending := None)))
  {
    hide Booked;
    SetCursorBooked(l, sub, l.cursors[sub].(active := false, pending := None));
  }

  // ----- The SQ ---------------------------------------------------------------------------------------

  /** What the ring says of raw entries in the SQ. */
  ghost predicate StagedBoxed(staged: seq<StagedContext>, rc: map<Addr, RawContext>) {
    forall i | 0 <= i < |staged| && staged[i].Raw? :: staged[i].p in rc && rc[staged[i].p].phase == S.Staged
  }

  lemma StagedAreBoxed(l: Ledger)
    requires Shaped(l) && Ringed(l.ring, Boxes(l))
    ensures StagedBoxed(l.ring.staged, l.raw.contexts)
  {
    forall i | 0 <= i < |l.ring.staged| && l.ring.staged[i].Raw?
      ensures l.ring.staged[i].p in l.raw.contexts && l.raw.contexts[l.ring.staged[i].p].phase == S.Staged
    {
      assert Tagged(l.ring.staged[i], Boxes(l));
      assert SlotsOf(l.ring, Boxes(l)).staged[i] == l.ring.staged[i].p;
    }
  }

  /** Contexts keep their identity where they are staged. */
  ghost predicate SameStaged(rc: map<Addr, RawContext>, rd: map<Addr, RawContext>) {
    forall p | p in rc && rc[p].phase == S.Staged ::
      p in rd && rd[p].kind == rc[p].kind && rd[p].sub == rc[p].sub && rd[p].index == rc[p].index
  }

  lemma SameWaiting(staged: seq<StagedContext>, rc: map<Addr, RawContext>, rd: map<Addr, RawContext>, sub: SubId)
    requires StagedBoxed(staged, rc) && SameStaged(rc, rd)
    ensures Waiting(staged, rd, sub) == Waiting(staged, rc, sub)
  {
    WaitingFrame(staged, rc, rd, sub);
  }

  lemma RangePush(lo: nat, hi: nat)
    requires lo <= hi
    ensures Range(lo, hi) + [hi] == Range(lo, hi + 1)
  {
  }

  // ----- Staging an original --------------------------------------------------------------------------

  lemma CountedOk(st: Sub.Submission, limit: nat)
    requires Sub.Ok(st, limit) && !st.iteratorFinished && st.counts.accepted <= st.counts.originals
    ensures Sub.Ok(CountOriginals(st), limit)
  {
  }

  lemma StageOriginalAccount(raw: RawSide, sub: SubId, n: Sub.Counts, p: Addr, x: RawContext)
    requires AccountOk(raw, sub, n) && p !in raw.contexts
    requires x.kind == Original && x.sub == sub && x.phase == S.Staged
    ensures AccountOk(raw.(contexts := raw.contexts[p := x]), sub, n.(originals := n.originals + 1))
  {
    CountNew(raw.contexts, p, x, StagedOf(sub));
    CountNew(raw.contexts, p, x, SubmittedOf(sub));
    CountNew(raw.contexts, p, x, CancelOf(sub));
  }

  lemma StageOriginalOrder(staged: seq<StagedContext>, rc: map<Addr, RawContext>, sub: SubId, n: Sub.Counts, p: Addr,
                           x: RawContext)
    requires InOrder(staged, rc, sub, n) && StagedBoxed(staged, rc) && p !in rc
    requires x.kind == Original && x.sub == sub && x.index == n.originals
    ensures InOrder(staged + [Raw(p)], rc[p := x], sub, n.(originals := n.originals + 1))
  {
    WaitingPush(staged, rc[p := x], sub, Raw(p));
    SameWaiting(staged, rc, rc[p := x], sub);
    assert Waiting([Raw(p)], rc[p := x], sub) == [x.index] + Waiting([], rc[p := x], sub);
    RangePush(n.accepted, n.originals);
  }

  lemma StageOriginalOwn(raw: RawSide, staged: seq<StagedContext>, sub: SubId, st: Sub.Submission, c: Cursor,
                         limit: nat, p: Addr, x: RawContext)
    requires SubBooked(raw, staged, sub, st, c, limit) && StagedBoxed(staged, raw.contexts) && p !in raw.contexts
    requires c.active && c.pending.Some? && c.pending.value < |c.entries|
    requires x == RawContext(Original, S.Staged, c.pending.value, c.entries[c.pending.value], sub, None, false, false)
    ensures SubBooked(raw.(contexts := raw.contexts[p := x]), staged + [Raw(p)], sub, CountOriginals(st),
                      c.(pending := None), limit)
  {
    hide Sub.Ok;
    hide AccountOk;
    hide EntriesOk;
    hide FinalOk;
    CountedOk(st, limit);
    StageOriginalAccount(raw, sub, st.counts, p, x);
    StageOriginalOrder(staged, raw.contexts, sub, st.counts, p, x);
    StageOriginalEntries(raw.contexts, sub, c, st, p, x);
  }

  lemma StageOriginalEntries(rc: map<Addr, RawContext>, sub: SubId, c: Cursor, st: Sub.Submission, p: Addr, x: RawContext)
    requires EntriesOk(rc, sub, c.entries, st.counts.originals) && p !in rc
    requires ArrivalOk(st.history.arrived, c.entries, st.counts.originals) && FinalOk(st.history.arrived, rc, sub)
    requires x.kind == Original && x.sub == sub && x.index == st.counts.originals < |c.entries|
    requires x.userData == c.entries[x.index]
    ensures EntriesOk(rc[p := x], sub, c.entries, st.counts.originals + 1)
    ensures FinalOk(st.history.arrived, rc[p := x], sub)
  {
    assert forall q | OriginalOf(rc[p := x], q, sub) && q != p :: OriginalOf(rc, q, sub);
  }

  lemma PushApart(raw: RawSide, staged: seq<StagedContext>, raw': RawSide, p: Addr, x: RawContext, s: SubId)
    requires p !in raw.contexts && raw'.contexts == raw.contexts[p := x] && x.sub != s
    requires CommandsOf(raw'.cancelQueue, s) == CommandsOf(raw.cancelQueue, s)
    ensures Apart(raw, staged, raw', staged + [Raw(p)], s)
  {
    WaitingPush(staged, raw'.contexts, s, Raw(p));
  }

  lemma StageOriginalAll(l: Ledger, sub: SubId, p: Addr)
    requires AllBooked(l.raw, l.ring.staged, l.subs, l.cursors, l.cfg.limit)
    requires StagedBoxed(l.ring.staged, l.raw.contexts) && CanStageOriginal(l, sub, p)
    ensures var m := StageOriginal(l, sub, p);
            AllBooked(m.raw, m.ring.staged, m.subs, m.cursors, m.cfg.limit)
  {
    var m := StageOriginal(l, sub, p);
    var x := m.raw.contexts[p];
    StageOriginalOwn(l.raw, l.ring.staged, sub, l.subs[sub], l.cursors[sub], l.cfg.limit, p, x);
    forall s | s in l.subs && s != sub
      ensures Apart(l.raw, l.ring.staged, m.raw, m.ring.staged, s)
    {
      PushApart(l.raw, l.ring.staged, m.raw, p, x, s);
    }
    OneBooked(l.raw, l.ring.staged, l.subs, l.cursors, l.cfg.limit, m.raw, m.ring.staged, sub, m.subs[sub], m.cursors[sub]);
  }

  lemma StageOriginalBooked(l: Ledger, sub: SubId, p: Addr)
    requires Booked(l) && StagedBoxed(l.ring.staged, l.raw.contexts) && CanStageOriginal(l, sub, p)
    ensures Booked(StageOriginal(l, sub, p))
  {
    StageOriginalAll(l, sub, p);
    CopiesNew(l.raw, p, StageOriginal(l, sub, p).raw.contexts[p]);
  }

  lemma CopiesNew(raw: RawSide, p: Addr, x: RawContext)
    requires CopiesOk(raw) && p !in raw.contexts && x.kind == Original
    ensures CopiesOk(raw.(contexts := raw.contexts[p := x]))
  {
    assert forall i | 0 <= i < |raw.cancelQueue| :: Copies(raw.contexts, raw.cancelQueue[i]);
  }

  // ----- Requesting and staging a cancellation --------------------------------------------------------

  /** The identity of a box and everything the classes look at are unchanged. */
  predicate SameFace(x: RawContext, y: RawContext) {
    x.sub == y.sub && x.kind == y.kind && x.phase == y.phase && x.index == y.index && x.userData == y.userData
    && x.target == y.target
  }

  lemma FaceCounts(rc: map<Addr, RawContext>, p: Addr, y: RawContext, sub: SubId)
    requires p in rc && SameFace(rc[p], y)
    ensures Count(rc[p := y], StagedOf(sub)) == Count(rc, StagedOf(sub))
    ensures Count(rc[p := y], SubmittedOf(sub)) == Count(rc, SubmittedOf(sub))
    ensures Count(rc[p := y], CancelOf(sub)) == Count(rc, CancelOf(sub))
  {
    CountPut(rc, p, y, StagedOf(sub));
    CountPut(rc, p, y, SubmittedOf(sub));
    CountPut(rc, p, y, CancelOf(sub));
  }

  lemma FaceEntries(rc: map<Addr, RawContext>, p: Addr, y: RawContext, sub: SubId, entries: seq<nat>,
                    originals: nat, arrived: seq<Sub.Completion>)
    requires p in rc && SameFace(rc[p], y)
    requires EntriesOk(rc, sub, entries, originals) && FinalOk(arrived, rc, sub)
    ensures EntriesOk(rc[p := y], sub, entries, originals) && FinalOk(arrived, rc[p := y], sub)
  {
    assert forall q | OriginalOf(rc[p := y], q, sub) :: OriginalOf(rc, q, sub);
  }

  lemma FaceCopies(raw: RawSide, p: Addr, y: RawContext)
    requires CopiesOk(raw) && p in raw.contexts && SameFace(raw.contexts[p], y)
    ensures CopiesOk(raw.(contexts := raw.contexts[p := y]))
  {
    assert forall i | 0 <= i < |raw.cancelQueue| :: Copies(raw.contexts, raw.cancelQueue[i]);
    assert forall q | q in raw.contexts && raw.contexts[q].kind == Cancel :: Copies(raw.contexts, CommandOf(raw.contexts[q]));
  }

  lemma CountCancelsOk(st: Sub.Submission, limit: nat)
    requires Sub.Ok(st, limit)
    ensures Sub.Ok(CountCancels(st), limit)
  {
    hide Sub.CancelsOk;
    hide Sub.Finals;
  }

  lemma CountAcceptedOk(st: Sub.Submission, limit: nat)
    requires Sub.Ok(st, limit) && st.counts.accepted < st.counts.originals
    ensures Sub.Ok(CountAccepted(st), limit)
  {
    hide Sub.CancelsOk;
    hide Sub.Finals;
  }

  lemma QueueCancelOwn(raw: RawSide, staged: seq<StagedContext>, st: Sub.Submission, c: Cursor,
                       limit: nat, p: Addr, command: CancelCommand)
    requires p in raw.contexts && command.sub == raw.contexts[p].sub && StagedBoxed(staged, raw.contexts)
    requires SubBooked(raw, staged, command.sub, st, c, limit)
    ensures SubBooked(RawSide(raw.contexts[p := raw.contexts[p].(cancelQueued := true)], raw.cancelQueue + [command]),
                      staged, command.sub, CountCancels(st), c, limit)
  {
    hide Sub.Ok;
    CountCancelsOk(st, limit);
    var y := raw.contexts[p].(cancelQueued := true);
    FaceCounts(raw.contexts, p, y, command.sub);
    FaceEntries(raw.contexts, p, y, command.sub, c.entries, st.counts.originals, st.history.arrived);
    CommandsPush(raw.cancelQueue, command, command.sub);
    SameWaiting(staged, raw.contexts, raw.contexts[p := y], command.sub);
  }

  lemma QueueCancelApart(raw: RawSide, staged: seq<StagedContext>, p: Addr, command: CancelCommand, s: SubId)
    requires p in raw.contexts && raw.contexts[p].sub == command.sub != s
    ensures Apart(raw, staged, RawSide(raw.contexts[p := raw.contexts[p].(cancelQueued := true)],
                                       raw.cancelQueue + [command]), staged, s)
  {
    CommandsPush(raw.cancelQueue, command, s);
  }

  lemma QueueCancelAll(l: Ledger, p: Addr)
    requires AllBooked(l.raw, l.ring.staged, l.subs, l.cursors, l.cfg.limit)
    requires StagedBoxed(l.ring.staged, l.raw.contexts) && CanQueueCancel(l, p)
    ensures var m := QueueCancel(l, p);
            AllBooked(m.raw, m.ring.staged, m.subs, m.cursors, m.cfg.limit)
  {
    var m := QueueCancel(l, p);
    var x := l.raw.contexts[p];
    var command := CancelCommand(p, x.index, x.userData, x.sub);
    QueueCancelOwn(l.raw, l.ring.staged, l.subs[x.sub], l.cursors[x.sub], l.cfg.limit, p, command);
    forall s | s in l.subs && s != x.sub
      ensures Apart(l.raw, l.ring.staged, m.raw, m.ring.staged, s)
    {
      QueueCancelApart(l.raw, l.ring.staged, p, command, s);
    }
    OneBooked(l.raw, l.ring.staged, l.subs, l.cursors, l.cfg.limit, m.raw, m.ring.staged, x.sub, m.subs[x.sub],
              l.cursors[x.sub]);
    SelfPut(l.cursors, x.sub);
  }

  lemma QueueCancelCopies(raw: RawSide, p: Addr)
    requires CopiesOk(raw) && p in raw.contexts && raw.contexts[p].kind == Original
    ensures var x := raw.contexts[p];
            CopiesOk(RawSide(raw.contexts[p := x.(cancelQueued := true)],
                             raw.cancelQueue + [CancelCommand(p, x.index, x.userData, x.sub)]))
  {
    FaceCopies(raw, p, raw.contexts[p].(cancelQueued := true));
  }

  lemma QueueCancelBooked(l: Ledger, p: Addr)
    requires Booked(l) && StagedBoxed(l.ring.staged, l.raw.contexts) && CanQueueCancel(l, p)
    ensures Booked(QueueCancel(l, p))
  {
    hide SubBooked;
    hide AllBooked;
    hide CopiesOk;
    hide StagedBoxed;
    QueueCancelAll(l, p);
    QueueCancelCopies(l.raw, p);
  }

  lemma StageCancelAccount(raw: RawSide, n: Sub.Counts, p: Addr, x: RawContext)
    requires raw.cancelQueue != [] && p !in raw.contexts && x.kind == Cancel && x.sub == raw.cancelQueue[0].sub
    requires AccountOk(raw, x.sub, n)
    ensures AccountOk(RawSide(raw.contexts[p := x], raw.cancelQueue[1..]), x.sub, n)
  {
    CountNew(raw.contexts, p, x, StagedOf(x.sub));
    CountNew(raw.contexts, p, x, SubmittedOf(x.sub));
    CountNew(raw.contexts, p, x, CancelOf(x.sub));
  }

  lemma StageCancelOwn(raw: RawSide, staged: seq<StagedContext>, st: Sub.Submission, c: Cursor,
                       limit: nat, p: Addr, x: RawContext)
    requires raw.cancelQueue != [] && p !in raw.contexts && StagedBoxed(staged, raw.contexts)
    requires x.kind == Cancel && x.sub == raw.cancelQueue[0].sub
    requires SubBooked(raw, staged, x.sub, st, c, limit)
    ensures SubBooked(RawSide(raw.contexts[p := x], raw.cancelQueue[1..]), staged + [Raw(p)], x.sub, st, c, limit)
  {
    hide Sub.Ok;
    hide AccountOk;
    var rc := raw.contexts;
    StageCancelAccount(raw, st.counts, p, x);
    WaitingPush(staged, rc[p := x], x.sub, Raw(p));
    SameWaiting(staged, rc, rc[p := x], x.sub);
    assert forall q | OriginalOf(rc[p := x], q, x.sub) :: OriginalOf(rc, q, x.sub);
  }

  lemma StageCancelAll(l: Ledger, p: Addr)
    requires AllBooked(l.raw, l.ring.staged, l.subs, l.cursors, l.cfg.limit)
    requires StagedBoxed(l.ring.staged, l.raw.contexts) && CanStageCancel(l, p) && l.raw.cancelQueue[0].sub in l.subs
    ensures var m := StageCancel(l, p);
            AllBooked(m.raw, m.ring.staged, m.subs, m.cursors, m.cfg.limit)
  {
    var m := StageCancel(l, p);
    var x := m.raw.contexts[p];
    StageCancelOwn(l.raw, l.ring.staged, l.subs[x.sub], l.cursors[x.sub], l.cfg.limit, p, x);
    forall s | s in l.subs && s != x.sub
      ensures Apart(l.raw, l.ring.staged, m.raw, m.ring.staged, s)
    {
      PushApart(l.raw, l.ring.staged, m.raw, p, x, s);
    }
    OneBooked(l.raw, l.ring.staged, l.subs, l.cursors, l.cfg.limit, m.raw, m.ring.staged, x.sub, l.subs[x.sub],
              l.cursors[x.sub]);
    SelfPut(l.subs, x.sub);
    SelfPut(l.cursors, x.sub);
  }

  lemma SelfPut<T>(m: map<SubId, T>, s: SubId)
    requires s in m
    ensures m[s := m[s]] == m
  {
  }

  lemma PopCommandSubs(q: seq<CancelCommand>, subs: set<SubId>)
    requires CommandSubsOk(q, subs) && q != []
    ensures q[0].sub in subs && CommandSubsOk(q[1..], subs)
  {
  }

  lemma StageCancelBooked(l: Ledger, p: Addr)
    requires Booked(l) && StagedBoxed(l.ring.staged, l.raw.contexts) && CanStageCancel(l, p)
    ensures Booked(StageCancel(l, p))
  {
    hide SubBooked;
    hide AllBooked;
    hide CopiesOk;
    hide StagedBoxed;
    hide CommandSubsOk;
    PopCommandSubs(l.raw.cancelQueue, l.subs.Keys);
    StageCancelAll(l, p);
    StageCancelCopies(l.raw, p, StageCancel(l, p).raw.contexts[p]);
  }

  lemma StageCancelCopies(raw: RawSide, p: Addr, x: RawContext)
    requires CopiesOk(raw) && raw.cancelQueue != [] && p !in raw.contexts
    requires x.kind == Cancel && x.target.Some? && CommandOf(x) == raw.cancelQueue[0]
    ensures CopiesOk(RawSide(raw.contexts[p := x], raw.cancelQueue[1..]))
  {
    var q := raw.cancelQueue[1..];
    assert forall i | 0 <= i < |q| :: q[i] == raw.cancelQueue[i + 1] && Copies(raw.contexts, raw.cancelQueue[i + 1]);
    assert Copies(raw.contexts, raw.cancelQueue[0]);
  }

  // ----- Acceptance -----------------------------------------------------------------------------------

  /** Entries that are not raw originals do not count in the order of admission. */
  lemma OwnedStagedAll(raw: RawSide, staged: seq<StagedContext>, staged': seq<StagedContext>,
                       subs: map<SubId, Sub.Submission>, cursors: map<SubId, Cursor>, limit: nat)
    requires AllBooked(raw, staged, subs, cursors, limit)
    requires forall s :: Waiting(staged', raw.contexts, s) == Waiting(staged, raw.contexts, s)
    ensures AllBooked(raw, staged', subs, cursors, limit)
  {
    forall s | s in subs
      ensures SubBooked(raw, staged', s, subs[s], cursors[s], limit)
    {
      ElsewhereBooked(raw, staged, raw, staged', s, subs[s], cursors[s], limit);
    }
  }

  lemma PushOwnedBooked(l: Ledger, m: Ledger, st: StagedContext)
    requires Booked(l) && !st.Raw? && m.ring.staged == l.ring.staged + [st]
    requires m.raw == l.raw && m.subs == l.subs && m.cursors == l.cursors && m.cfg == l.cfg
    ensures Booked(m)
  {
    forall s
      ensures Waiting(m.ring.staged, l.raw.contexts, s) == Waiting(l.ring.staged, l.raw.contexts, s)
    {
      WaitingPush(l.ring.staged, l.raw.contexts, s, st);
    }
    OwnedStagedAll(l.raw, l.ring.staged, m.ring.staged, l.subs, l.cursors, l.cfg.limit);
  }

  lemma PopOwnedBooked(l: Ledger, m: Ledger)
    requires Booked(l) && l.ring.staged != [] && !l.ring.staged[0].Raw? && m.ring.staged == l.ring.staged[1..]
    requires m.raw == l.raw && m.subs == l.subs && m.cursors == l.cursors && m.cfg == l.cfg
    ensures Booked(m)
  {
    OwnedStagedAll(l.raw, l.ring.staged, m.ring.staged, l.subs, l.cursors, l.cfg.limit);
  }

  lemma AcceptCounts(rc: map<Addr, RawContext>, p: Addr, sub: SubId)
    requires p in rc && rc[p].phase == S.Staged
    ensures var y := rc[p].(phase := S.Submitted);
            var k := if OriginalOf(rc, p, sub) then 1 else 0;
            && Count(rc[p := y], StagedOf(sub)) + k == Count(rc, StagedOf(sub))
            && Count(rc[p := y], SubmittedOf(sub)) == Count(rc, SubmittedOf(sub)) + k
            && Count(rc[p := y], CancelOf(sub)) == Count(rc, CancelOf(sub))
  {
    var y := rc[p].(phase := S.Submitted);
    CountPut(rc, p, y, StagedOf(sub));
    CountPut(rc, p, y, SubmittedOf(sub));
    CountPut(rc, p, y, CancelOf(sub));
  }

  /** The oldest waiting entry leaves the SQ; its identity does not change. */
  lemma AcceptWaiting(staged: seq<StagedContext>, rc: map<Addr, RawContext>, p: Addr, sub: SubId)
    requires staged != [] && staged[0] == Raw(p) && StagedBoxed(staged, rc)
    ensures var y := rc[p].(phase := S.Submitted);
            Waiting(staged, rc, sub)
            == (if OriginalOf(rc, p, sub) then [rc[p].index] else []) + Waiting(staged[1..], rc[p := y], sub)
  {
    var y := rc[p].(phase := S.Submitted);
    assert StagedBoxed(staged[1..], rc) by {
      assert forall i | 0 <= i < |staged[1..]| :: staged[1..][i] == staged[i + 1];
    }
    SameWaiting(staged[1..], rc, rc[p := y], sub);
  }

  lemma AcceptEntries(rc: map<Addr, RawContext>, p: Addr, sub: SubId, entries: seq<nat>, originals: nat,
                      arrived: seq<Sub.Completion>)
    requires p in rc && rc[p].phase == S.Staged && EntriesOk(rc, sub, entries, originals) && FinalOk(arrived, rc, sub)
    ensures EntriesOk(rc[p := rc[p].(phase := S.Submitted)], sub, entries, originals)
    ensures FinalOk(arrived, rc[p := rc[p].(phase := S.Submitted)], sub)
  {
    var rd := rc[p := rc[p].(phase := S.Submitted)];
    assert forall q | OriginalOf(rd, q, sub) :: OriginalOf(rc, q, sub);
  }

  lemma AcceptOriginalOwn(raw: RawSide, staged: seq<StagedContext>, sub: SubId, st: Sub.Submission, c: Cursor,
                          limit: nat, p: Addr)
    requires SubBooked(raw, staged, sub, st, c, limit) && StagedBoxed(staged, raw.contexts)
    requires staged != [] && staged[0] == Raw(p) && OriginalOf(raw.contexts, p, sub)
    ensures SubBooked(raw.(contexts := raw.contexts[p := raw.contexts[p].(phase := S.Submitted)]), staged[1..],
                      sub, CountAccepted(st), c, limit)
  {
    hide Sub.Ok;
    hide EntriesOk;
    hide ArrivalOk;
    hide FinalOk;
    hide Waiting;
    AcceptCounts(raw.contexts, p, sub);
    AcceptWaiting(staged, raw.contexts, p, sub);
    AcceptEntries(raw.contexts, p, sub, c.entries, st.counts.originals, st.history.arrived);
    CountHit(raw.contexts, p, StagedOf(sub));
    CountAcceptedOk(st, limit);
    RangePop(st.counts.accepted, st.counts.originals);
  }

  lemma RangePop(lo: nat, hi: nat)
    requires lo < hi
    ensures Range(lo, hi) == [lo] + Range(lo + 1, hi) && Range(lo, hi)[1..] == Range(lo + 1, hi)
  {
  }

  lemma AcceptCancelOwn(raw: RawSide, staged: seq<StagedContext>, sub: SubId, st: Sub.Submission, c: Cursor,
                        limit: nat, p: Addr)
    requires SubBooked(raw, staged, sub, st, c, limit) && StagedBoxed(staged, raw.contexts)
    requires staged != [] && staged[0] == Raw(p) && !OriginalOf(raw.contexts, p, sub)
    ensures SubBooked(raw.(contexts := raw.contexts[p := raw.contexts[p].(phase := S.Submitted)]), staged[1..],
                      sub, st, c, limit)
  {
    AcceptCounts(raw.contexts, p, sub);
    AcceptWaiting(staged, raw.contexts, p, sub);
    AcceptEntries(raw.contexts, p, sub, c.entries, st.counts.originals, st.history.arrived);
  }

  lemma AcceptRawBooked(l: Ledger, p: Addr)
    requires Booked(l) && StagedBoxed(l.ring.staged, l.raw.contexts)
    requires l.ring.sq != [] && l.ring.staged != [] && l.ring.staged[0] == Raw(p)
    ensures AcceptRaw(l, p).Done? && Booked(AcceptRaw(l, p).value)
  {
    AcceptRawAll(l, p);
    AcceptCopies(l.raw, p);
  }

  lemma AcceptCopies(raw: RawSide, p: Addr)
    requires CopiesOk(raw) && p in raw.contexts
    ensures CopiesOk(raw.(contexts := raw.contexts[p := raw.contexts[p].(phase := S.Submitted)]))
  {
    hide Copies;
    var y := raw.contexts[p].(phase := S.Submitted);
    forall i | 0 <= i < |raw.cancelQueue|
      ensures Copies(raw.contexts[p := y], raw.cancelQueue[i])
    {
      CopyStays(raw.contexts, p, y, raw.cancelQueue[i]);
    }
    forall q | q in raw.contexts && raw.contexts[q].kind == Cancel
      ensures Copies(raw.contexts[p := y], CommandOf(raw.contexts[q]))
    {
      CopyStays(raw.contexts, p, y, CommandOf(raw.contexts[q]));
    }
  }

  lemma CopyStays(rc: map<Addr, RawContext>, p: Addr, y: RawContext, c: CancelCommand)
    requires p in rc && Copies(rc, c) && y == rc[p].(phase := y.phase)
    ensures Copies(rc[p := y], c)
  {
  }

  lemma AcceptRawOne(raw: RawSide, staged: seq<StagedContext>, subs: map<SubId, Sub.Submission>, s: SubId, c: Cursor,
                     limit: nat, p: Addr)
    requires s in subs && SubBooked(raw, staged, s, subs[s], c, limit) && StagedBoxed(staged, raw.contexts)
    requires staged != [] && staged[0] == Raw(p)
    ensures SubBooked(raw.(contexts := raw.contexts[p := raw.contexts[p].(phase := S.Submitted)]), staged[1..],
                      s, AcceptSubs(subs, raw.contexts[p])[s], c, limit)
  {
    if OriginalOf(raw.contexts, p, s) {
      AcceptOriginalOwn(raw, staged, s, subs[s], c, limit, p);
    } else {
      AcceptCancelOwn(raw, staged, s, subs[s], c, limit, p);
    }
  }

  lemma AcceptRawEach(raw: RawSide, staged: seq<StagedContext>, subs: map<SubId, Sub.Submission>,
                      cursors: map<SubId, Cursor>, limit: nat, p: Addr)
    requires AllBooked(raw, staged, subs, cursors, limit) && StagedBoxed(staged, raw.contexts)
    requires staged != [] && staged[0] == Raw(p)
    ensures AllBooked(raw.(contexts := raw.contexts[p := raw.contexts[p].(phase := S.Submitted)]), staged[1..],
                      AcceptSubs(subs, raw.contexts[p]), cursors, limit)
  {
    hide SubBooked;
    forall s | s in subs
      ensures SubBooked(raw.(contexts := raw.contexts[p := raw.contexts[p].(phase := S.Submitted)]), staged[1..],
                        s, AcceptSubs(subs, raw.contexts[p])[s], cursors[s], limit)
    {
      AcceptRawOne(raw, staged, subs, s, cursors[s], limit, p);
    }
  }

  lemma AcceptRawAll(l: Ledger, p: Addr)
    requires AllBooked(l.raw, l.ring.staged, l.subs, l.cursors, l.cfg.limit)
    requires StagedBoxed(l.ring.staged, l.raw.contexts)
    requires l.ring.sq != [] && l.ring.staged != [] && l.ring.staged[0] == Raw(p)
    ensures AcceptRaw(l, p).Done?
    ensures var m := AcceptRaw(l, p).value;
            AllBooked(m.raw, m.ring.staged, m.subs, m.cursors, m.cfg.limit)
  {
    AcceptRawEach(l.raw, l.ring.staged, l.subs, l.cursors, l.cfg.limit, p);
  }

  // ----- Dispatch of an original ----------------------------------------------------------------------

  lemma MoreOwn(raw: RawSide, staged: seq<StagedContext>, sub: SubId, st: Sub.Submission, c: Cursor,
                limit: nat, p: Addr, d: Sub.Completion)
    requires SubBooked(raw, staged, sub, st, c, limit) && OriginalOf(raw.contexts, p, sub)
    requires raw.contexts[p].phase == S.Submitted && d.more
    requires d.index == raw.contexts[p].index && d.userData == raw.contexts[p].userData
    ensures SubBooked(raw, staged, sub, Sub.OnOriginal(st, d, limit), c, limit)
  {
    Sub.OnOriginalOk(st, d, limit);
    MoreArrival(raw.contexts, sub, c.entries, st.counts.originals, st.history.arrived, p, d);
  }

  lemma MoreArrival(rc: map<Addr, RawContext>, sub: SubId, entries: seq<nat>, originals: nat,
                    arrived: seq<Sub.Completion>, p: Addr, d: Sub.Completion)
    requires EntriesOk(rc, sub, entries, originals) && ArrivalOk(arrived, entries, originals) && FinalOk(arrived, rc, sub)
    requires OriginalOf(rc, p, sub) && rc[p].phase == S.Submitted && d.index == rc[p].index && d.userData == rc[p].userData
    ensures ArrivalOk(arrived + [d], entries, originals)
    ensures d.more ==> FinalOk(arrived + [d], rc, sub)
  {
    var a := arrived + [d];
    assert forall i | 0 <= i < |arrived| :: a[i] == arrived[i];
  }

  /** The box of an original after its final CQE: gone, or terminal and waiting for its cancellation. */
  ghost predicate Finished(rc: map<Addr, RawContext>, rd: map<Addr, RawContext>, p: Addr) {
    && p in rc && rc[p].kind == Original && rc[p].phase == S.Submitted
    && (rd == rc - {p} || rd == rc[p := rc[p].(phase := S.Terminal)])
  }

  lemma FinishedCounts(rc: map<Addr, RawContext>, rd: map<Addr, RawContext>, p: Addr, sub: SubId)
    requires Finished(rc, rd, p) && rc[p].sub == sub
    ensures Count(rd, StagedOf(sub)) == Count(rc, StagedOf(sub))
    ensures Count(rd, SubmittedOf(sub)) + 1 == Count(rc, SubmittedOf(sub))
    ensures Count(rd, CancelOf(sub)) == Count(rc, CancelOf(sub))
  {
    if rd == rc - {p} {
      CountGone(rc, p, StagedOf(sub));
      CountGone(rc, p, SubmittedOf(sub));
      CountGone(rc, p, CancelOf(sub));
    } else {
      var y := rc[p].(phase := S.Terminal);
      CountPut(rc, p, y, StagedOf(sub));
      CountPut(rc, p, y, SubmittedOf(sub));
      CountPut(rc, p, y, CancelOf(sub));
    }
  }

  lemma FinishedEntries(rc: map<Addr, RawContext>, rd: map<Addr, RawContext>, p: Addr, sub: SubId, entries: seq<nat>,
                        originals: nat, arrived: seq<Sub.Completion>, d: Sub.Completion)
    requires Finished(rc, rd, p) && rc[p].sub == sub
    requires EntriesOk(rc, sub, entries, originals) && FinalOk(arrived, rc, sub)
    requires d.index == rc[p].index
    ensures EntriesOk(rd, sub, entries, originals) && FinalOk(arrived + [d], rd, sub)
  {
    var a := arrived + [d];
    assert forall i | 0 <= i < |arrived| :: a[i] == arrived[i];
    assert forall q | OriginalOf(rd, q, sub) :: OriginalOf(rc, q, sub) && rd[q].index == rc[q].index;
    assert OriginalOf(rc, p, sub);
  }

  lemma FinishedOwn(raw: RawSide, staged: seq<StagedContext>, sub: SubId, st: Sub.Submission, c: Cursor,
                    limit: nat, p: Addr, rd: map<Addr, RawContext>, d: Sub.Completion)
    requires SubBooked(raw, staged, sub, st, c, limit) && StagedBoxed(staged, raw.contexts)
    requires Finished(raw.contexts, rd, p) && raw.contexts[p].sub == sub && !d.more
    requires d.index == raw.contexts[p].index && d.userData == raw.contexts[p].userData
    ensures SubBooked(raw.(contexts := rd), staged, sub, Sub.OnOriginal(st, d, limit), c, limit)
  {
    hide Sub.Ok;
    hide EntriesOk;
    hide ArrivalOk;
    hide FinalOk;
    FinishedCounts(raw.contexts, rd, p, sub);
    Sub.OnOriginalOk(st, d, limit);
    MoreArrival(raw.contexts, sub, c.entries, st.counts.originals, st.history.arrived, p, d);
    FinishedEntries(raw.contexts, rd, p, sub, c.entries, st.counts.originals, st.history.arrived, d);
    SameWaiting(staged, raw.contexts, rd, sub);
  }

  /** Nothing aims at an original that goes. */
  lemma FinishedCopies(raw: RawSide, rd: map<Addr, RawContext>, p: Addr)
    requires CopiesOk(raw) && P.TargetsOk(RawPairs(raw)) && Finished(raw.contexts, rd, p)
    requires rd == raw.contexts - {p} ==> !(raw.contexts[p].cancelQueued && !raw.contexts[p].cancelSeen)
    ensures CopiesOk(raw.(contexts := rd))
  {
    forall i | 0 <= i < |raw.cancelQueue|
      ensures Copies(rd, raw.cancelQueue[i])
    {
      assert Copies(raw.contexts, raw.cancelQueue[i]);
      assert P.Awaiting(RawPairs(raw), Targets(raw.cancelQueue)[i]);
    }
    forall q | q in rd && rd[q].kind == Cancel
      ensures rd[q].target.Some? && Copies(rd, CommandOf(rd[q]))
    {
      assert Copies(raw.contexts, CommandOf(raw.contexts[q]));
      assert P.Awaiting(RawPairs(raw), RawCancels(raw.contexts)[q]);
    }
  }

  lemma RetireOriginalOwn(raw: RawSide, staged: seq<StagedContext>, st: Sub.Submission, k: Cursor,
                          limit: nat, c: S.Cqe)
    requires c.userData in raw.contexts && StagedBoxed(staged, raw.contexts)
    requires raw.contexts[c.userData].kind == Original && raw.contexts[c.userData].phase == S.Submitted
    requires SubBooked(raw, staged, raw.contexts[c.userData].sub, st, k, limit)
    ensures SubBooked(raw.(contexts := RetireOriginal(raw.contexts, c.userData, c.more)), staged,
                      raw.contexts[c.userData].sub, Sub.OnOriginal(st, Delivered(raw.contexts[c.userData], c), limit),
                      k, limit)
  {
    var x := raw.contexts[c.userData];
    if c.more {
      MoreOwn(raw, staged, x.sub, st, k, limit, c.userData, Delivered(x, c));
    } else {
      FinishedOwn(raw, staged, x.sub, st, k, limit, c.userData, RetireOriginal(raw.contexts, c.userData, false),
                  Delivered(x, c));
    }
  }

  /** `OneBooked` for steps that leave the SQ, the commands and the cursors alone. */
  lemma ContextsBooked(raw: RawSide, staged: seq<StagedContext>, subs: map<SubId, Sub.Submission>,
                       cursors: map<SubId, Cursor>, limit: nat, rd: map<Addr, RawContext>, sub: SubId, st': Sub.Submission)
    requires AllBooked(raw, staged, subs, cursors, limit) && sub in subs
    requires SubBooked(raw.(contexts := rd), staged, sub, st', cursors[sub], limit)
    requires forall s | s != sub :: Elsewhere(raw.contexts, rd, s)
    ensures AllBooked(raw.(contexts := rd), staged, subs[sub := st'], cursors, limit)
  {
    hide SubBooked;
    hide Elsewhere;
    OneBooked(raw, staged, subs, cursors, limit, raw.(contexts := rd), staged, sub, st', cursors[sub]);
    SelfPut(cursors, sub);
  }

  lemma DispatchOriginalAll(l: Ledger, c: S.Cqe)
    requires AllBooked(l.raw, l.ring.staged, l.subs, l.cursors, l.cfg.limit)
    requires StagedBoxed(l.ring.staged, l.raw.contexts) && C.FrontOriginal(l, c)
    ensures var m := DispatchOriginal(l, c);
            AllBooked(m.raw, m.ring.staged, m.subs, m.cursors, m.cfg.limit)
  {
    hide SubBooked;
    var x := l.raw.contexts[c.userData];
    RetireOriginalOwn(l.raw, l.ring.staged, l.subs[x.sub], l.cursors[x.sub], l.cfg.limit, c);
    ContextsBooked(l.raw, l.ring.staged, l.subs, l.cursors, l.cfg.limit,
                   RetireOriginal(l.raw.contexts, c.userData, c.more), x.sub,
                   Sub.OnOriginal(l.subs[x.sub], Delivered(x, c), l.cfg.limit));
  }

  /** The completion reaches the history of its submission, the end of its buffer if there is room, and no one else. */
  predicate Arrives(l: Ledger, m: Ledger, sub: SubId, d: Sub.Completion) {
    && sub in l.subs && m.subs.Keys == l.subs.Keys
    && (forall s | s in l.subs && s != sub :: m.subs[s] == l.subs[s])
    && m.subs[sub].history.arrived == l.subs[sub].history.arrived + [d]
    && (l.subs[sub].buffers.delivery == Sub.Open && |l.subs[sub].buffers.normal| < l.cfg.limit ==>
          m.subs[sub].buffers.normal == l.subs[sub].buffers.normal + [d])
  }

  predicate CancelArrives(l: Ledger, m: Ledger, sub: SubId, d: Sub.Completion) {
    && sub in l.subs && m.subs.Keys == l.subs.Keys
    && (forall s | s in l.subs && s != sub :: m.subs[s] == l.subs[s])
    && m.subs[sub].history.cancels.arrived == l.subs[sub].history.cancels.arrived + [d]
    && (l.subs[sub].buffers.delivery != Sub.Detached && |l.subs[sub].buffers.cancellations| < l.cfg.limit ==>
          m.subs[sub].buffers.cancellations == l.subs[sub].buffers.cancellations + [d])
  }

  lemma OriginalArrives(l: Ledger, c: S.Cqe)
    requires l.ring.batch != [] && c.userData in l.raw.contexts && l.raw.contexts[c.userData].sub in l.subs
    ensures var x := l.raw.contexts[c.userData];
            Arrives(l, DispatchOriginal(l, c), x.sub, Sub.Completion(x.index, x.userData, c.result, c.more))
  {
    hide RetireOriginal;
  }

  lemma CancelArrivesHome(l: Ledger, c: S.Cqe, t: Addr)
    requires l.ring.batch != [] && c.userData in l.raw.contexts && l.raw.contexts[c.userData].sub in l.subs
    requires l.raw.contexts[c.userData].target == Some(t) && t in l.raw.contexts && t != c.userData
    requires Copies(l.raw.contexts, CommandOf(l.raw.contexts[c.userData]))
    ensures var y := l.raw.contexts[t];
            CancelArrives(l, DispatchCancel(l, c), y.sub, Sub.Completion(y.index, y.userData, c.result, c.more))
  {
    hide RetireCancel;
  }

  lemma DispatchOriginalBooked(l: Ledger, c: S.Cqe)
    requires Booked(l) && P.TargetsOk(RawPairs(l.raw))
    requires StagedBoxed(l.ring.staged, l.raw.contexts) && C.FrontOriginal(l, c)
    ensures Booked(DispatchOriginal(l, c))
    ensures var x := l.raw.contexts[c.userData];
            Arrives(l, DispatchOriginal(l, c), x.sub, Sub.Completion(x.index, x.userData, c.result, c.more))
  {
    OriginalArrives(l, c);
    hide Arrives;
    DispatchOriginalAll(l, c);
    if !c.more {
      FinishedCopies(l.raw, DispatchOriginal(l, c).raw.contexts, c.userData);
    }
  }

  // ----- Dispatch of a cancellation -------------------------------------------------------------------

  /** The cancellation box `a` goes, and its target goes with it or learns of it. */
  ghost predicate Retired(rc: map<Addr, RawContext>, rd: map<Addr, RawContext>, a: Addr, t: Addr) {
    && a in rc && t in rc && a != t
    && rc[a].kind == Cancel && rc[t].kind == Original && rc[t].sub == rc[a].sub
    && rd == RetireCancel(rc, a, t)
  }

  lemma RetiredCounts(rc: map<Addr, RawContext>, rd: map<Addr, RawContext>, a: Addr, t: Addr)
    requires Retired(rc, rd, a, t)
    ensures var sub := rc[a].sub;
            && Count(rd, StagedOf(sub)) == Count(rc, StagedOf(sub))
            && Count(rd, SubmittedOf(sub)) == Count(rc, SubmittedOf(sub))
            && Count(rd, CancelOf(sub)) + 1 == Count(rc, CancelOf(sub))
  {
    var sub := rc[a].sub;
    var rest := rc - {a};
    CountGone(rc, a, StagedOf(sub));
    CountGone(rc, a, SubmittedOf(sub));
    CountGone(rc, a, CancelOf(sub));
    if rest[t].phase == S.Terminal {
      CountGone(rest, t, StagedOf(sub));
      CountGone(rest, t, SubmittedOf(sub));
      CountGone(rest, t, CancelOf(sub));
    } else {
      FaceCounts(rest, t, rest[t].(cancelSeen := true), sub);
    }
  }

  lemma RetiredEntries(rc: map<Addr, RawContext>, rd: map<Addr, RawContext>, a: Addr, t: Addr, sub: SubId,
                       entries: seq<nat>, originals: nat, arrived: seq<Sub.Completion>)
    requires Retired(rc, rd, a, t)
    requires EntriesOk(rc, sub, entries, originals) && FinalOk(arrived, rc, sub)
    ensures EntriesOk(rd, sub, entries, originals) && FinalOk(arrived, rd, sub)
  {
    assert forall q | OriginalOf(rd, q, sub) ::
        OriginalOf(rc, q, sub) && rd[q].index == rc[q].index && rd[q].userData == rc[q].userData
        && rd[q].phase == rc[q].phase;
  }

  lemma RetiredOwn(raw: RawSide, staged: seq<StagedContext>, st: Sub.Submission, c: Cursor,
                   limit: nat, a: Addr, t: Addr, rd: map<Addr, RawContext>, d: Sub.Completion)
    requires Retired(raw.contexts, rd, a, t)
    requires SubBooked(raw, staged, raw.contexts[a].sub, st, c, limit) && StagedBoxed(staged, raw.contexts)
    requires raw.contexts[a].phase == S.Submitted
    ensures SubBooked(raw.(contexts := rd), staged, raw.contexts[a].sub, Sub.OnCancel(st, d, limit), c, limit)
  {
    hide Sub.Ok;
    var sub := raw.contexts[a].sub;
    RetiredCounts(raw.contexts, rd, a, t);
    Sub.OnCancelOk(st, d, limit);
    RetiredEntries(raw.contexts, rd, a, t, sub, c.entries, st.counts.originals, st.history.arrived);
    SameWaiting(staged, raw.contexts, rd, sub);
  }

  lemma RetiredCopies(raw: RawSide, rd: map<Addr, RawContext>, a: Addr, t: Addr)
    requires CopiesOk(raw) && P.OnceOk(RawPairs(raw)) && Retired(raw.contexts, rd, a, t)
    requires raw.contexts[a].target == Some(t)
    ensures CopiesOk(raw.(contexts := rd))
  {
    var pairs := RawPairs(raw);
    assert pairs.cancels[a] == t;
    forall i | 0 <= i < |raw.cancelQueue|
      ensures Copies(rd, raw.cancelQueue[i])
    {
      assert Copies(raw.contexts, raw.cancelQueue[i]);
      assert pairs.commands[i] != pairs.cancels[a];
    }
    forall q | q in rd && rd[q].kind == Cancel
      ensures rd[q].target.Some? && Copies(rd, CommandOf(rd[q]))
    {
      assert Copies(raw.contexts, CommandOf(raw.contexts[q]));
      assert pairs.cancels[q] != pairs.cancels[a];
    }
  }

  lemma DispatchCancelAll(l: Ledger, c: S.Cqe, t: Addr)
    requires AllBooked(l.raw, l.ring.staged, l.subs, l.cursors, l.cfg.limit)
    requires StagedBoxed(l.ring.staged, l.raw.contexts) && C.FrontCancel(l, c, t)
    requires l.raw.contexts[c.userData].phase == S.Submitted && l.raw.contexts[t].sub == l.raw.contexts[c.userData].sub
    ensures var m := DispatchCancel(l, c);
            AllBooked(m.raw, m.ring.staged, m.subs, m.cursors, m.cfg.limit)
  {
    hide SubBooked;
    var x := l.raw.contexts[c.userData];
    var rd := RetireCancel(l.raw.contexts, c.userData, t);
    RetiredOwn(l.raw, l.ring.staged, l.subs[x.sub], l.cursors[x.sub], l.cfg.limit, c.userData, t, rd, Delivered(x, c));
    ContextsBooked(l.raw, l.ring.staged, l.subs, l.cursors, l.cfg.limit, rd, x.sub,
                   Sub.OnCancel(l.subs[x.sub], Delivered(x, c), l.cfg.limit));
  }

  lemma DispatchCancelBooked(l: Ledger, c: S.Cqe, t: Addr)
    requires Booked(l) && P.OnceOk(RawPairs(l.raw))
    requires StagedBoxed(l.ring.staged, l.raw.contexts) && C.FrontCancel(l, c, t)
    requires l.raw.contexts[c.userData].phase == S.Submitted
    ensures Booked(DispatchCancel(l, c))
    ensures var y := l.raw.contexts[t];
            CancelArrives(l, DispatchCancel(l, c), y.sub, Sub.Completion(y.index, y.userData, c.result, c.more))
  {
    assert Copies(l.raw.contexts, CommandOf(l.raw.contexts[c.userData]));
    CancelArrivesHome(l, c, t);
    hide CancelArrives;
    DispatchCancelAll(l, c, t);
    RetiredCopies(l.raw, DispatchCancel(l, c).raw.contexts, c.userData, t);
  }
}
