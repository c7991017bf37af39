/** The counters of a submission against the boxes, commands and SQ entries that exist for it. */
module Accounts {
  import opened Prelude
  import opened Ledger
  import opened Shape
  import S = Slots
  import Sub = Submission

  // ----- Counting boxes -------------------------------------------------------------------------------

  datatype Class = StagedOf(sub: SubId) | SubmittedOf(sub: SubId) | CancelOf(sub: SubId)

  predicate InClass(x: RawContext, c: Class) {
    match c
    case StagedOf(sub) => x.sub == sub && x.kind == Original && x.phase == S.Staged
    case SubmittedOf(sub) => x.sub == sub && x.kind == Original && x.phase == S.Submitted
    case CancelOf(sub) => x.sub == sub && x.kind == Cancel
  }

  function Members(rc: map<Addr, RawContext>, c: Class): set<Addr> {
    set p | p in rc && InClass(rc[p], c)
  }

  function Count(rc: map<Addr, RawContext>, c: Class): nat {
    |Members(rc, c)|
  }

  function Hit(rc: map<Addr, RawContext>, p: Addr, c: Class): nat {
    if p in rc && InClass(rc[p], c) then 1 else 0
  }

  lemma CountGone(rc: map<Addr, RawContext>, p: Addr, c: Class)
    ensures Count(rc - {p}, c) + Hit(rc, p, c) == Count(rc, c)
  {
    var rest := Members(rc - {p}, c);
    assert Members(rc, c) == rest + (if Hit(rc, p, c) == 1 then {p} else {});
  }

  lemma CountNew(rc: map<Addr, RawContext>, p: Addr, x: RawContext, c: Class)
    requires p !in rc
    ensures Count(rc[p := x], c) == Count(rc, c) + (if InClass(x, c) then 1 else 0)
  {
    hide InClass;
    if InClass(x, c) {
      assert Members(rc[p := x], c) == Members(rc, c) + {p};
    } else {
      assert Members(rc[p := x], c) == Members(rc, c);
    }
  }

  lemma CountPut(rc: map<Addr, RawContext>, p: Addr, x: RawContext, c: Class)
    ensures Count(rc[p := x], c) + Hit(rc, p, c) == Count(rc, c) + (if InClass(x, c) then 1 else 0)
  {
    CountGone(rc, p, c);
    CountNew(rc - {p}, p, x, c);
    assert (rc - {p})[p := x] == rc[p := x];
  }

  lemma CountHit(rc: map<Addr, RawContext>, p: Addr, c: Class)
    requires p in rc && InClass(rc[p], c)
    ensures Count(rc, c) > 0
  {
    assert p in Members(rc, c);
  }

  lemma CountZero(rc: map<Addr, RawContext>, c: Class)
    requires Count(rc, c) == 0
    ensures forall p | p in rc :: !InClass(rc[p], c)
  {
    forall p | p in rc
      ensures !InClass(rc[p], c)
    {
      if InClass(rc[p], c) {
        CountHit(rc, p, c);
        assert false;
      }
    }
  }

  function CommandsOf(q: seq<CancelCommand>, sub: SubId): nat {
    if q == [] then 0 else (if q[0].sub == sub then 1 else 0) + CommandsOf(q[1..], sub)
  }

  lemma {:induction false} CommandsPush(q: seq<CancelCommand>, c: CancelCommand, sub: SubId)
    ensures CommandsOf(q + [c], sub) == CommandsOf(q, sub) + (if c.sub == sub then 1 else 0)
  {
    if q == [] {
      assert q + [c] == [c];
      assert CommandsOf([c][1..], sub) == 0;
    } else {
      assert (q + [c])[1..] == q[1..] + [c];
      CommandsPush(q[1..], c, sub);
    }
  }

  lemma {:induction false} CommandsZero(q: seq<CancelCommand>, sub: SubId)
    ensures CommandsOf(q, sub) == 0 <==> forall i | 0 <= i < |q| :: q[i].sub != sub
  {
    if q != [] {
      CommandsZero(q[1..], sub);
      assert forall i | 0 < i < |q| :: q[i] == q[1..][i - 1];
    }
  }

  /**
    Originals not yet accepted are the staged ones, accepted ones not yet terminal are the submitted
    ones, and cancellations not yet terminal are the queued commands and the cancellation boxes.
   */
  ghost predicate AccountOk(raw: RawSide, sub: SubId, n: Sub.Counts) {
    && n.originals == n.accepted + Count(raw.contexts, StagedOf(sub))
    && n.accepted == n.originalTerminal + Count(raw.contexts, SubmittedOf(sub))
    && n.cancels == n.cancelTerminal + CommandsOf(raw.cancelQueue, sub) + Count(raw.contexts, CancelOf(sub))
  }

  /** Commands and cancellation boxes carry the identity of the original they aim at. */
  ghost predicate CopiesOk(raw: RawSide) {
    && (forall i | 0 <= i < |raw.cancelQueue| :: Copies(raw.contexts, raw.cancelQueue[i]))
    && (forall p | p in raw.contexts && raw.contexts[p].kind == Cancel ::
          raw.contexts[p].target.Some? && Copies(raw.contexts, CommandOf(raw.contexts[p])))
  }

  function CommandOf(x: RawContext): CancelCommand
    requires x.target.Some?
  {
    CancelCommand(x.target.value, x.index, x.userData, x.sub)
  }

  ghost predicate Copies(rc: map<Addr, RawContext>, c: CancelCommand) {
    && c.target in rc && rc[c.target].kind == Original
    && rc[c.target].sub == c.sub && rc[c.target].index == c.index && rc[c.target].userData == c.userData
  }

  // ----- The order of admission -----------------------------------------------------------------------

  /** The indices of the originals of `sub` that wait in the SQ, oldest first. */
  function Waiting(staged: seq<StagedContext>, rc: map<Addr, RawContext>, sub: SubId): seq<nat> {
    if staged == [] then []
    else
      var p := staged[0].p;
      (if staged[0].Raw? && p in rc && rc[p].kind == Original && rc[p].sub == sub then [rc[p].index] else [])
      + Waiting(staged[1..], rc, sub)
  }

  lemma {:induction false} WaitingPush(staged: seq<StagedContext>, rc: map<Addr, RawContext>, sub: SubId, st: StagedContext)
    ensures Waiting(staged + [st], rc, sub) == Waiting(staged, rc, sub) + Waiting([st], rc, sub)
  {
    if staged == [] {
      assert staged + [st] == [st];
    } else {
      assert (staged + [st])[1..] == staged[1..] + [st];
      WaitingPush(staged[1..], rc, sub, st);
    }
  }

  lemma {:induction false} WaitingFrame(staged: seq<StagedContext>, rc: map<Addr, RawContext>, rd: map<Addr, RawContext>, sub: SubId)
    requires forall i | 0 <= i < |staged| && staged[i].Raw? ::
               && staged[i].p in rc && staged[i].p in rd
               && rc[staged[i].p].kind == rd[staged[i].p].kind
               && rc[staged[i].p].sub == rd[staged[i].p].sub
               && rc[staged[i].p].index == rd[staged[i].p].index
    ensures Waiting(staged, rc, sub) == Waiting(staged, rd, sub)
  {
    if staged != [] {
      assert forall i | 0 <= i < |staged[1..]| :: staged[1..][i] == staged[i + 1];
      WaitingFrame(staged[1..], rc, rd, sub);
    }
  }

  /** The originals of a submission enter the kernel in iterator order, without a gap. */
  ghost predicate InOrder(staged: seq<StagedContext>, rc: map<Addr, RawContext>, sub: SubId, n: Sub.Counts) {
    n.accepted <= n.originals && Waiting(staged, rc, sub) == Range(n.accepted, n.originals)
  }

  /** Where the iterator stands: everything it yielded is staged, but for the item that did not fit. */
  ghost predicate CursorOk(c: Cursor, st: Sub.Submission) {
    && c.next <= |c.entries|
    && (c.pending.Some? ==> c.active && c.pending.value + 1 == c.next)
    && (c.active ==> st.counts.originals + (if c.pending.Some? then 1 else 0) == c.next)
    && st.counts.originals <= |c.entries|
    && (st.iteratorFinished ==> st.counts.originals == |c.entries| && c.pending.None?)
  }

  predicate OriginalOf(rc: map<Addr, RawContext>, p: Addr, sub: SubId) {
    p in rc && rc[p].kind == Original && rc[p].sub == sub
  }

  /** Every original box stands for one entry of its iterator, and no two for the same entry. */
  ghost predicate EntriesOk(rc: map<Addr, RawContext>, sub: SubId, entries: seq<nat>, originals: nat) {
    && originals <= |entries|
    && (forall p | OriginalOf(rc, p, sub) :: rc[p].index < originals && rc[p].userData == entries[rc[p].index])
    && (forall p, q | OriginalOf(rc, p, sub) && OriginalOf(rc, q, sub) && p != q :: rc[p].index != rc[q].index)
  }

  /**
    A completion carries the position and the user data of its own entry, and nothing follows the
    final completion of an entry.
   */
  ghost predicate ArrivalOk(arrived: seq<Sub.Completion>, entries: seq<nat>, originals: nat) {
    && originals <= |entries|
    && (forall i | 0 <= i < |arrived| ::
          arrived[i].index < originals && arrived[i].userData == entries[arrived[i].index])
    && (forall i, j | 0 <= i < j < |arrived| && !arrived[i].more :: arrived[j].index != arrived[i].index)
  }

  /** No box that may still complete stands for an entry whose final completion has arrived. */
  ghost predicate FinalOk(arrived: seq<Sub.Completion>, rc: map<Addr, RawContext>, sub: SubId) {
    forall i, p | 0 <= i < |arrived| && !arrived[i].more && OriginalOf(rc, p, sub) && rc[p].phase != S.Terminal ::
      rc[p].index != arrived[i].index
  }

  /** Everything promised about one submission. */
  ghost predicate SubBooked(
    raw: RawSide, staged: seq<StagedContext>, sub: SubId, st: Sub.Submission, c: Cursor, limit: nat)
  {
    && AccountOk(raw, sub, st.counts)
    && InOrder(staged, raw.contexts, sub, st.counts)
    && CursorOk(c, st)
    && EntriesOk(raw.contexts, sub, c.entries, st.counts.originals)
    && ArrivalOk(st.history.arrived, c.entries, st.counts.originals)
    && FinalOk(st.history.arrived, raw.contexts, sub)
    && Sub.Ok(st, limit)
  }

  ghost predicate AllBooked(
    raw: RawSide, staged: seq<StagedContext>, subs: map<SubId, Sub.Submission>, cursors: map<SubId, Cursor>, limit: nat)
  {
    && subs.Keys == cursors.Keys
    && (forall sub | sub in subs :: SubBooked(raw, staged, sub, subs[sub], cursors[sub], limit))
  }

  ghost predicate CommandSubsOk(q: seq<CancelCommand>, subs: set<SubId>) {
    forall i | 0 <= i < |q| :: q[i].sub in subs
  }

  /** Everything the raw side promises about its submissions. */
  ghost predicate Booked(l: Ledger) {
    && CopiesOk(l.raw)
    && CommandSubsOk(l.raw.cancelQueue, l.subs.Keys)
    && AllBooked(l.raw, l.ring.staged, l.subs, l.cursors, l.cfg.limit)
  }
}
