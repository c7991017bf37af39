/** The driver object under its invariant: whole passes and the whole sweep of shutdown, without an abort. */
module DriverRuns {
  import opened Prelude
  import opened Ledger
  import opened Traces
  import opened Driver
  import opened Safety
  import Accounts
  import Operations
  import Shape
  import Shutdown
  import C = CoreSteps
  import B = BookSteps
  import S = Slots
  import Sub = Submission

  /** Under the invariant neither an accepted entry nor a CQE ever hits an abort. */
  lemma NeverStuck(l: Ledger)
    requires Inv(l)
    ensures |l.ring.staged| == |l.ring.sq|
    ensures l.ring.sq != [] ==> Accept(l).Done?
    ensures l.ring.batch != [] ==> Dispatch(l).Done?
  {
    assert Shape.Ringed(l.ring, Shape.Boxes(l));
    hide Shape.Core;
    hide Accounts.Booked;
    hide OpsOk;
    hide FlagsOk;
    hide Accept;
    hide Dispatch;
    if l.ring.sq != [] {
      C.AcceptCore(l);
    }
    if l.ring.batch != [] {
      C.DispatchCore(l);
    }
  }

  lemma Cursors(l: Ledger)
    requires Inv(l)
    ensures l.subs.Keys == l.cursors.Keys
    ensures forall sub | sub in l.cursors :: CursorSane(l.cursors[sub])
  {
    hide Shape.Core;
    hide OpsOk;
    hide FlagsOk;
    B.Known(l);
    hide Accounts.Booked;
    assert forall sub | sub in l.cursors :: Accounts.CursorOk(l.cursors[sub], l.subs[sub]);
  }

  lemma OneTarget(l: Ledger, op: Op)
    requires Inv(l)
    ensures forall p, q | OwnedTarget(l.owned.contexts, op, p) && OwnedTarget(l.owned.contexts, op, q) :: p == q
  {
    OwnedShaped(l);
    hide Shape.Core;
    hide Accounts.Booked;
    hide FlagsOk;
    hide Operations.PlacesOk;
    forall p, q | OwnedTarget(l.owned.contexts, op, p) && OwnedTarget(l.owned.contexts, op, q)
      ensures p == q
    {
      if p != q {
        Operations.OneBox(l.ops, l.owned.contexts, l.owned.cancels, p, q);
      }
    }
  }

  /** A run so far, and the invariant where it ends. */
  ghost predicate Ran(l: Ledger, acts: seq<Action>, m: Ledger) {
    Reaches(l, acts, m) && Inv(m)
  }

  lemma Start(l: Ledger)
    requires Inv(l)
    ensures Ran(l, [], l)
  {
    hide Inv;
  }

  lemma Then(l: Ledger, acts: seq<Action>, m: Ledger, more: seq<Action>, n: Ledger)
    requires Ran(l, acts, m) && Reaches(m, more, n)
    ensures Ran(l, acts + more, n)
  {
    hide Inv;
    hide Reaches;
    Concat(l, acts, m, more, n);
    Runs(m, more, n);
  }

  lemma ThenOne(l: Ledger, acts: seq<Action>, m: Ledger, a: Action)
    requires Ran(l, acts, m) && Enabled(m, a)
    ensures Apply(m, a).Done? && Ran(l, acts + [a], Apply(m, a).value)
  {
    hide Inv;
    hide Reaches;
    hide Enabled;
    hide Apply;
    Kept(m, a);
    Snoc(l, acts, m, a);
  }

  /**
    The staging half of `pass`: cancellations, owned cancellations, owned operations, then one
    submission.  Unless the SQ was full, every command got its slot, and the line of owned operations
    is empty or gave up as many as one pass may take.
   */
  method StageAndSubmit(d: IoUringDriver, take: Option<nat>) returns (taken: nat, ghost acts: seq<Action>)
    requires Inv(d.L()) && Unlocked(d.L())
    modifies d
    ensures Ran(old(d.L()), acts, d.L()) && Unlocked(d.L())
    ensures SameCq(old(d.ring), d.ring) && SameStreams(old(d.subs), d.subs)
    ensures Submitted(d.L(), taken, if take.Some? then take.value else 0)
  {
    hide Inv;
    hide Ran;
    hide Reaches;
    hide Accept;
    hide Line;
    hide SameStreams;
    ghost var start := d.L();
    Start(start);
    ghost var more := d.StageCancellations();
    Then(start, [], start, more, d.L());
    acts := [] + more;
    ghost var now := d.L();
    more := d.StageOwnedCancellations();
    Then(start, acts, now, more, d.L());
    acts := acts + more;
    now := d.L();
    taken, more := d.StageOwnedOps(d.cfg.entries);
    Then(start, acts, now, more, d.L());
    acts := acts + more;
    now := d.L();
    RanInv(start, acts, now);
    NeverStuck(now);
    var count := if take.Some? then Some(if take.value < |d.ring.sq| then take.value else |d.ring.sq|) else None;
    var ok;
    ok, more := d.SubmitStaged(count);
    Then(start, acts, now, more, d.L());
    acts := acts + more;
    RanInv(start, acts, d.L());
    NeverStuck(d.L());
  }

  /** What the staging half of a pass leaves when the kernel takes up to `take` entries and `taken` operations left the line. */
  predicate Submitted(l: Ledger, taken: nat, take: nat) {
    |l.ring.sq| + take >= l.cfg.entries
    || (l.raw.cancelQueue == [] && l.owned.cancelQueue == [] && (Line(l.ops) == [] || taken == l.cfg.entries))
  }

  /** Whoever waits for admission with its iterator unfinished is woken, unless owned work goes first. */
  method WakeAdmissions(d: IoUringDriver) returns (ghost acts: seq<Action>)
    requires Inv(d.L()) && Unlocked(d.L())
    modifies d`subs
    ensures Ran(old(d.L()), acts, d.L()) && SameStreams(old(d.subs), d.subs)
    ensures forall sub | sub in d.subs && sub in d.flags.registry && !d.subs[sub].iteratorFinished :: !d.subs[sub].waiters.admission
  {
    hide Inv;
    hide Ran;
    hide Reaches;
    Cursors(d.L());
    Start(d.L());
    acts := [];
    var todo := d.flags.registry;
    while todo != {}
      invariant Ran(old(d.L()), acts, d.L()) && d.subs.Keys == d.cursors.Keys && SameStreams(old(d.subs), d.subs)
      invariant forall sub | sub in d.subs && sub in d.flags.registry && sub !in todo && !d.subs[sub].iteratorFinished ::
                  !d.subs[sub].waiters.admission
      decreases |todo|
    {
      ghost var before := d.L();
      var sub :| sub in todo;
      todo := todo - {sub};
      if sub in d.subs && !d.subs[sub].iteratorFinished {
        d.subs := d.subs[sub := WaitAdmission(d.subs[sub], false)];
        assert d.L() == SetSub(before, sub, WaitAdmission(before.subs[sub], false));
        ThenWake(old(d.L()), acts, before, sub);
        acts := acts + [DoWakeAdmission(sub)];
      }
    }
  }

  lemma ThenWake(l: Ledger, acts: seq<Action>, m: Ledger, sub: SubId)
    requires Ran(l, acts, m) && HasSub(m, sub)
    ensures Ran(l, acts + [DoWakeAdmission(sub)], SetSub(m, sub, WaitAdmission(m.subs[sub], false)))
  {
    hide Ran;
    ThenOne(l, acts, m, DoWakeAdmission(sub));
  }

  lemma ThenReap(l: Ledger, acts: seq<Action>, m: Ledger, n: nat)
    requires Ran(l, acts, m) && CanReap(m, n)
    ensures Ran(l, acts + [DoReap(n)], Reap(m, n))
  {
    hide Ran;
    ThenOne(l, acts, m, DoReap(n));
  }

  /** The overflowing submissions of a pass are cancelled: none of them keeps an original without a command. */
  method CancelOverflowing(d: IoUringDriver, overflow: seq<SubId>) returns (ghost acts: seq<Action>)
    requires Inv(d.L()) && Unlocked(d.L()) && forall i | 0 <= i < |overflow| :: overflow[i] in d.subs
    modifies d`raw, d`subs
    ensures Ran(old(d.L()), acts, d.L()) && DeliveryNamed(old(d.subs), d.subs, overflow)
    ensures AllClear(d.raw.contexts, overflow, |overflow|)
    ensures forall i | 0 <= i < |overflow| ::
              overflow[i] in d.subs && d.subs[overflow[i]].buffers.delivery != Sub.Open
  {
    hide Inv;
    hide Ran;
    hide Reaches;
    hide ClearOf;
    hide AllClear;
    hide FewerTargets;
    hide DeliveryNamed;
    hide OnlyCloses;
    hide AllClosed;
    Start(d.L());
    NoneNamed(d.raw.contexts, overflow);
    NoneClosed(d.subs, overflow);
    acts := [];
    var i := 0;
    while i < |overflow|
      invariant i <= |overflow| && Ran(old(d.L()), acts, d.L()) && DeliveryNamed(old(d.subs), d.subs, overflow)
      invariant AllClosed(d.subs, overflow, i)
      invariant AllClear(d.raw.contexts, overflow, i)
    {
      ghost var before := d.L();
      RanInv(old(d.L()), acts, before);
      Cursors(before);
      ClosedKnown(d.subs, overflow, i, i);
      ghost var more := d.RequestCancel(overflow[i], Sub.Overflow);
      Then(old(d.L()), acts, before, more, d.L());
      OneMoreClear(before.raw.contexts, d.raw.contexts, overflow, i);
      OneMoreClosed(old(d.subs), before.subs, d.subs, overflow, i);
      acts := acts + more;
      i := i + 1;
    }
    forall j | 0 <= j < |overflow|
      ensures overflow[j] in d.subs && d.subs[overflow[j]].buffers.delivery != Sub.Open
    {
      ClosedKnown(d.subs, overflow, |overflow|, j);
    }
  }

  /** All named submissions exist, and the first `n` of them are closed. */
  predicate AllClosed(subs: map<SubId, Sub.Submission>, named: seq<SubId>, n: nat) {
    forall j | 0 <= j < |named| :: named[j] in subs && (j < n ==> subs[named[j]].buffers.delivery != Sub.Open)
  }

  lemma NoneClosed(subs: map<SubId, Sub.Submission>, named: seq<SubId>)
    requires forall j | 0 <= j < |named| :: named[j] in subs
    ensures AllClosed(subs, named, 0) && DeliveryNamed(subs, subs, named)
  {
  }

  lemma ClosedKnown(subs: map<SubId, Sub.Submission>, named: seq<SubId>, n: nat, j: nat)
    requires AllClosed(subs, named, n) && j < |named|
    ensures named[j] in subs && (j < n ==> subs[named[j]].buffers.delivery != Sub.Open)
  {
  }

  lemma OneMoreClosed(start: map<SubId, Sub.Submission>, before: map<SubId, Sub.Submission>,
                      after: map<SubId, Sub.Submission>, named: seq<SubId>, n: nat)
    requires n < |named| && AllClosed(before, named, n) && OnlyCloses(before, after)
    requires named[n] in after && after[named[n]].buffers.delivery != Sub.Open
    requires DeliveryNamed(start, before, named) && DeliveryNamed(before, after, [named[n]])
    ensures AllClosed(after, named, n + 1) && DeliveryNamed(start, after, named)
  {
    assert [named[n]][0] == named[n];
  }

  /** The first `n` of the named submissions have every cancellation requested. */
  ghost predicate AllClear(rc: map<Addr, RawContext>, named: seq<SubId>, n: nat) {
    forall i | 0 <= i < n <= |named| :: ClearOf(rc, named[i])
  }

  lemma NoneNamed(rc: map<Addr, RawContext>, named: seq<SubId>)
    ensures AllClear(rc, named, 0)
  {
  }

  lemma OneMoreClear(before: map<Addr, RawContext>, after: map<Addr, RawContext>, named: seq<SubId>, n: nat)
    requires n < |named| && AllClear(before, named, n) && FewerTargets(before, after) && ClearOf(after, named[n])
    ensures AllClear(after, named, n + 1)
  {
    forall i | 0 <= i < n
      ensures ClearOf(after, named[i])
    {
      StaysClear(before, after, named[i]);
    }
  }

  lemma RanInv(l: Ledger, acts: seq<Action>, m: Ledger)
    requires Ran(l, acts, m)
    ensures Inv(m)
  {
    hide Inv;
  }

  /** The rest of `pass`: failed operations end, then the oldest CQEs are dispatched and overflow is acted on. */
  method ReapAndDispatch(d: IoUringDriver, reapSize: nat) returns (backlog: bool, ghost overflow: seq<SubId>, ghost acts: seq<Action>)
    requires Inv(d.L()) && Unlocked(d.L()) && d.ring.batch == []
    modifies d
    ensures Ran(old(d.L()), acts, d.L()) && Shutdown.AtRest(d.L())
    ensures backlog == (|old(d.ring.cq)| >= reapSize)
    ensures d.ring.cq == old(d.ring.cq)[if |old(d.ring.cq)| < reapSize then |old(d.ring.cq)| else reapSize..]
    ensures DeliveryNamed(old(d.subs), d.subs, overflow)
    ensures AllClear(d.raw.contexts, overflow, |overflow|)
  {
    hide Inv;
    hide Ran;
    hide Reaches;
    hide Dispatch;
    ghost var start := d.L();
    Start(start);
    ghost var more := d.FinishAll();
    Then(start, [], start, more, d.L());
    acts := [] + more;
    ghost var now := d.L();
    var n := if |d.ring.cq| < reapSize then |d.ring.cq| else reapSize;
    d.ring := d.ring.(batch := d.ring.cq[..n], cq := d.ring.cq[n..]);
    backlog := n == reapSize || d.ring.cq != [];
    ThenReap(start, acts, now, n);
    acts := acts + [DoReap(n)];
    now := d.L();
    var ok, named;
    ok, named, more := d.DispatchAll();
    overflow := named;
    Then(start, acts, now, more, d.L());
    acts := acts + more;
    now := d.L();
    RanInv(start, acts, now);
    NeverStuck(now);
    more := CancelOverflowing(d, named);
    ThenRan(start, acts, now, more, d.L());
    acts := acts + more;
  }

  /**
    `pass`: from a state of the invariant it takes only steps of the ledger, reaches no abort, and puts
    back everything it took out.  It stages and submits what it can (`mid` is the state after that and
    after waking those who wait for room), takes the oldest `reapSize` CQEs, says in `backlog` whether
    more may be waiting, and leaves no original of a submission that overflowed without a cancellation.
   */
  method Pass(d: IoUringDriver, take: Option<nat>, reapSize: nat)
    returns (backlog: bool, taken: nat, ghost first: seq<Action>, ghost mid: Ledger, ghost second: seq<Action>)
    requires Inv(d.L()) && Shutdown.AtRest(d.L())
    modifies d
    ensures Ran(old(d.L()), first, mid) && Ran(mid, second, d.L()) && Shutdown.AtRest(d.L())
    ensures Submitted(mid, taken, if take.Some? then take.value else 0)
    ensures !OwnedFirst(mid) ==>
              forall sub | sub in mid.subs && sub in mid.flags.registry && !mid.subs[sub].iteratorFinished ::
                !mid.subs[sub].waiters.admission
    ensures backlog == (|old(d.ring.cq)| >= reapSize)
    ensures d.ring.cq == old(d.ring.cq)[if |old(d.ring.cq)| < reapSize then |old(d.ring.cq)| else reapSize..]
    ensures forall sub | sub in old(d.subs) ::
              && sub in d.subs
              && (d.subs[sub].buffers.delivery != old(d.subs)[sub].buffers.delivery ==> ClearOf(d.raw.contexts, sub))
  {
    hide Inv;
    hide Ran;
    hide Reaches;
    ghost var start := d.L();
    taken, first := StageAndSubmit(d, take);
    mid := d.L();
    RanInv(start, first, mid);
    ghost var more;
    if d.ops.pending == [] && d.owned.cancelQueue == [] && d.ops.queue == [] {
      ghost var submitted := d.L();
      more := WakeAdmissions(d);
      ThenRan(start, first, submitted, more, d.L());
      first := first + more;
      mid := d.L();
      RanInv(start, first, mid);
    }
    ghost var overflow;
    backlog, overflow, second := ReapAndDispatch(d, reapSize);
  }

  lemma ThenRan(l: Ledger, acts: seq<Action>, m: Ledger, more: seq<Action>, n: Ledger)
    requires Ran(l, acts, m) && Ran(m, more, n)
    ensures Ran(l, acts + more, n)
  {
    hide Inv;
    hide Reaches;
    Concat(l, acts, m, more, n);
  }

  // ----- Shutdown ----------------------------------------------------------------------------------------

  lemma ThenShut(l: Ledger, m: Ledger)
    requires Ran(l, [], l) && AtRestAndOpen(l)
    requires m == l.(flags := l.flags.(accepting := false, shutdown := true, ownedAdmission := false,
                                       sweepSubs := l.flags.registry, sweepOps := LiveControls(l.owned.contexts)))
    ensures Ran(l, [DoCloseAdmission, DoShutdown], m)
  {
    hide Ran;
    ThenOne(l, [], l, DoCloseAdmission);
    var closed := l.(flags := l.flags.(ownedAdmission := false));
    assert [] + [DoCloseAdmission] == [DoCloseAdmission];
    ThenOne(l, [DoCloseAdmission], closed, DoShutdown);
    assert [DoCloseAdmission] + [DoShutdown] == [DoCloseAdmission, DoShutdown];
  }

  predicate AtRestAndOpen(l: Ledger) {
    Unlocked(l) && !l.flags.shutdown
  }

  lemma ThenSwept(l: Ledger, acts: seq<Action>, m: Ledger, sub: SubId)
    requires Ran(l, acts, m) && CanSwept(m, sub)
    ensures Ran(l, acts + [DoSwept(sub)], m.(flags := m.flags.(sweepSubs := m.flags.sweepSubs - {sub})))
  {
    hide Ran;
    hide CanSwept;
    ThenOne(l, acts, m, DoSwept(sub));
  }

  /** `Weak::upgrade` succeeds for every registered submission that something still refers to. */
  ghost predicate Upgrades(l: Ledger, upgraded: set<SubId>) {
    && upgraded <= l.flags.registry && upgraded <= l.subs.Keys
    && forall p | p in l.raw.contexts && l.raw.contexts[p].sub in l.flags.registry :: l.raw.contexts[p].sub in upgraded
  }

  /** The registry entries whose submission is gone need no cancellation. */
  method SweepDead(d: IoUringDriver, upgraded: set<SubId>) returns (ghost acts: seq<Action>)
    requires Inv(d.L()) && Unlocked(d.L())
    requires forall p | p in d.raw.contexts && d.raw.contexts[p].sub in d.flags.sweepSubs :: d.raw.contexts[p].sub in upgraded
    modifies d`flags
    ensures Ran(old(d.L()), acts, d.L())
    ensures d.flags == old(d.flags).(sweepSubs := d.flags.sweepSubs) && d.flags.sweepSubs <= upgraded
  {
    hide Inv;
    hide Ran;
    hide Reaches;
    Start(d.L());
    acts := [];
    var dead := d.flags.sweepSubs - upgraded;
    while dead != {}
      invariant Ran(old(d.L()), acts, d.L()) && Unlocked(d.L())
      invariant d.flags == old(d.flags).(sweepSubs := d.flags.sweepSubs) && d.flags.sweepSubs <= old(d.flags.sweepSubs)
      invariant dead == d.flags.sweepSubs - upgraded
      decreases |dead|
    {
      ghost var before := d.L();
      var sub :| sub in dead;
      dead := dead - {sub};
      d.flags := d.flags.(sweepSubs := d.flags.sweepSubs - {sub});
      ThenSwept(old(d.L()), acts, before, sub);
      acts := acts + [DoSwept(sub)];
    }
    assert forall sub | sub in d.flags.sweepSubs :: sub !in upgraded ==> sub in dead;
  }

  lemma ClearIsSwept(l: Ledger, sub: SubId)
    requires Unlocked(l) && ClearOf(l.raw.contexts, sub)
    ensures CanSwept(l, sub)
  {
  }

  /** One submission of the sweep: detached, cancelled, and off the list. */
  method SweepOne(d: IoUringDriver, sub: SubId) returns (ghost acts: seq<Action>)
    requires Inv(d.L()) && Unlocked(d.L()) && sub in d.subs
    modifies d`raw, d`subs, d`flags
    ensures Ran(old(d.L()), acts, d.L()) && Unlocked(d.L())
    ensures d.flags == old(d.flags).(sweepSubs := old(d.flags.sweepSubs) - {sub})
    ensures OnlyCloses(old(d.subs), d.subs) && sub in d.subs && d.subs[sub].buffers.delivery != Sub.Open
  {
    hide Inv;
    hide Ran;
    hide Reaches;
    hide CanSwept;
    hide ClearOf;
    hide FewerTargets;
    ghost var before := d.L();
    Start(before);
    Cursors(before);
    ghost var more := d.RequestCancel(sub, Sub.Detached);
    Then(before, [], before, more, d.L());
    acts := [] + more;
    ghost var cancelled := d.L();
    ClearIsSwept(cancelled, sub);
    d.flags := d.flags.(sweepSubs := d.flags.sweepSubs - {sub});
    ThenSwept(before, acts, cancelled, sub);
    acts := acts + [DoSwept(sub)];
  }

  /** Every submission still there is detached and all its originals are being cancelled. */
  method SweepSubmissions(d: IoUringDriver) returns (ghost acts: seq<Action>)
    requires Inv(d.L()) && Unlocked(d.L()) && d.flags.sweepSubs <= d.subs.Keys
    modifies d`raw, d`subs, d`flags
    ensures Ran(old(d.L()), acts, d.L())
    ensures d.flags == old(d.flags).(sweepSubs := {})
    ensures forall sub | sub in old(d.flags.sweepSubs) :: sub in d.subs && d.subs[sub].buffers.delivery != Sub.Open
  {
    hide Inv;
    hide Ran;
    hide Reaches;
    Start(d.L());
    acts := [];
    while d.flags.sweepSubs != {}
      invariant Ran(old(d.L()), acts, d.L()) && Unlocked(d.L())
      invariant d.flags == old(d.flags).(sweepSubs := d.flags.sweepSubs) && d.flags.sweepSubs <= old(d.flags.sweepSubs)
      invariant forall sub | sub in old(d.flags.sweepSubs) ::
                  sub in d.subs && (sub !in d.flags.sweepSubs ==> d.subs[sub].buffers.delivery != Sub.Open)
      decreases |d.flags.sweepSubs|
    {
      ghost var before := d.L();
      var sub :| sub in d.flags.sweepSubs;
      RanInv(old(d.L()), acts, before);
      ghost var more := SweepOne(d, sub);
      ThenRan(old(d.L()), acts, before, more, d.L());
      acts := acts + more;
    }
  }

  /** Every owned operation in flight is being cancelled. */
  method SweepOwned(d: IoUringDriver) returns (ghost acts: seq<Action>)
    requires Inv(d.L()) && Unlocked(d.L())
    modifies d`owned, d`ops, d`flags
    ensures Ran(old(d.L()), acts, d.L())
    ensures d.flags == old(d.flags).(sweepOps := {})
  {
    hide Inv;
    hide Ran;
    hide Reaches;
    Start(d.L());
    acts := [];
    while d.flags.sweepOps != {}
      invariant Ran(old(d.L()), acts, d.L()) && Unlocked(d.L())
      invariant d.flags == old(d.flags).(sweepOps := d.flags.sweepOps)
      decreases |d.flags.sweepOps|
    {
      ghost var before := d.L();
      var op :| op in d.flags.sweepOps;
      RanInv(old(d.L()), acts, before);
      OneTarget(before, op);
      ghost var t := d.RequestOwnedCancel(op, false);
      Then(old(d.L()), acts, before, [DoCancelOwned(op, t, false)], d.L());
      acts := acts + [DoCancelOwned(op, t, false)];
    }
  }

  /**
    The first half of `shutdown_and_wait`: admission closes, then the flags, then everything alive is
    cancelled.  When it returns every box that may still complete has its cancellation queued, boxed
    for the ring, or behind it, and every submission that was found is closed to its consumer.
   */
  method BeginShutdown(d: IoUringDriver, upgraded: set<SubId>) returns (ghost acts: seq<Action>)
    requires Inv(d.L()) && AtRestAndOpen(d.L()) && Upgrades(d.L(), upgraded)
    modifies d
    ensures Ran(old(d.L()), acts, d.L())
    ensures d.flags.shutdown && !d.flags.accepting && !d.flags.ownedAdmission
    ensures d.flags.sweepSubs == {} && d.flags.sweepOps == {}
    ensures AllCancelled(d.L())
  {
    hide Inv;
    hide Ran;
    hide Reaches;
    hide AllCancelled;
    ghost var start := d.L();
    Start(start);
    d.flags := d.flags.(ownedAdmission := false);
    d.flags := d.flags.(accepting := false, shutdown := true, sweepSubs := d.flags.registry,
                        sweepOps := LiveControls(d.owned.contexts));
    ThenShut(start, d.L());
    acts := [DoCloseAdmission, DoShutdown];
    ghost var now := d.L();
    RanInv(start, acts, now);
    ghost var more := SweepDead(d, upgraded);
    ThenRan(start, acts, now, more, d.L());
    acts := acts + more;
    now := d.L();
    RanInv(start, acts, now);
    more := SweepSubmissions(d);
    ThenRan(start, acts, now, more, d.L());
    acts := acts + more;
    now := d.L();
    RanInv(start, acts, now);
    more := SweepOwned(d);
    ThenRan(start, acts, now, more, d.L());
    acts := acts + more;
    RanInv(start, acts, d.L());
    SweptAll(d.L());
  }

  ghost predicate AllCancelled(l: Ledger) {
    && (forall p | p in l.raw.contexts && l.raw.contexts[p].kind == Original && l.raw.contexts[p].phase != S.Terminal ::
          Shutdown.BeingCancelled(Shape.RawPairs(l.raw), p))
    && (forall p | p in l.owned.contexts && l.owned.contexts[p].phase != S.Terminal ::
          Shutdown.BeingCancelled(Shape.OwnedPairs(l.owned), p))
  }

  lemma SweptAll(l: Ledger)
    requires Inv(l) && l.flags.shutdown && l.flags.sweepSubs == {} && l.flags.sweepOps == {}
    ensures AllCancelled(l)
  {
    hide Inv;
    hide Shutdown.BeingCancelled;
    Shutdown.Swept(l);
  }
}
