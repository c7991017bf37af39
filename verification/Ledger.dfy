/**
  The data of the io_uring driver and the atomic steps that change it.

  One step is one iteration of a loop inside a critical section, or a whole section that has no
  loop.  Steps of different threads, of the driver's run loop and of the kernel interleave freely,
  which allows every interleaving of whole sections and more.  A step of a section that holds the
  data lock is disabled while the run loop has popped an owned operation and not yet staged it
  (`ops.staging`), because it holds that lock from the pop to the push.

  The places where the program would abort are `Abort` outcomes of the functions below.
 */
module Ledger {
  import opened Prelude
  import S = Slots
  import Sub = Submission

  type Addr = S.Addr
  type SubId = nat

  /** A completion-native operation: one control block together with its one handler. */
  datatype Op = Op(id: nat, opcode: nat)

  datatype Kind = Original | Cancel

  /** One boxed `CqeContext`. */
  datatype RawContext = RawContext(
    kind: Kind, phase: S.Phase, index: nat, userData: nat, sub: SubId,
    target: Option<Addr>, cancelQueued: bool, cancelSeen: bool)

  datatype CancelCommand = CancelCommand(target: Addr, index: nat, userData: nat, sub: SubId)

  datatype OwnedContext = OwnedContext(
    phase: S.Phase, control: Op, handler: Option<Op>, cancelQueued: bool, cancelSeen: bool)

  datatype OwnedCancelContext = OwnedCancelContext(phase: S.Phase, target: Addr)

  datatype StagedContext = Raw(p: Addr) | Owned(p: Addr) | OwnedCancel(p: Addr)

  /** What an SQE asks for, apart from the address in its `user_data`. */
  datatype Body = Caller(sub: SubId, index: nat) | AsyncCancel(target: Addr) | Work(op: Op)

  datatype Sqe = Sqe(userData: Addr, body: Body)

  datatype OwnedOutcome = Completed(result: int) | Closed | Cancelled | Unsupported

  datatype Finish = Finish(op: Op, outcome: OwnedOutcome)

  /** The `SubmitEntries` future of one submission; `entries` lists the user data of its iterator. */
  datatype Cursor = Cursor(entries: seq<nat>, next: nat, pending: Option<nat>, active: bool)

  datatype RawSide = RawSide(contexts: map<Addr, RawContext>, cancelQueue: seq<CancelCommand>)

  datatype OwnedSide = OwnedSide(
    contexts: map<Addr, OwnedContext>, cancels: map<Addr, OwnedCancelContext>, cancelQueue: seq<Addr>)

  /** The userspace SQ and its mirror, the kernel, the CQ, and the CQEs reaped by the current pass. */
  datatype Ring = Ring(
    staged: seq<StagedContext>, sq: seq<Sqe>, inflight: map<Addr, Body>, cq: seq<S.Cqe>, batch: seq<S.Cqe>)

  /**
    Owned operations by place.  `held` is what the run loop has taken out and not yet completed or
    failed.  `accepted` and `finished` are history; `flagged` is the cancellation flag of each
    control block, and `dropped` the operations whose future has finished its `drop`.
   */
  datatype Ops = Ops(
    queue: seq<Op>, pending: seq<Op>, staging: Option<Op>, held: seq<Finish>,
    finished: seq<Finish>, accepted: set<Op>, flagged: set<Op>, dropped: set<Op>)

  /**
    `registry` is the weak registry, `live` the submissions some capability object still holds.
    `sweepSubs` and `sweepOps` are what the shutting-down thread collected and has yet to cancel.
   */
  datatype Flags = Flags(
    accepting: bool, shutdown: bool, ownedAdmission: bool,
    registry: set<SubId>, live: set<SubId>, sweepSubs: set<SubId>, sweepOps: set<Op>)

  datatype Config = Config(entries: nat, limit: nat, supported: set<nat>)

  datatype Ledger = Ledger(
    cfg: Config, raw: RawSide, owned: OwnedSide, ring: Ring, ops: Ops, flags: Flags,
    subs: map<SubId, Sub.Submission>, cursors: map<SubId, Cursor>)

  datatype Outcome<+T> = Done(value: T) | Abort(reason: string)

  function Init(cfg: Config): Ledger {
    Ledger(cfg, RawSide(map[], []), OwnedSide(map[], map[], []), Ring([], [], map[], [], []),
           Ops([], [], None, [], [], {}, {}, {}), Flags(true, false, true, {}, {}, {}, {}), map[], map[])
  }

  predicate Boxed(l: Ledger, p: Addr) {
    p in l.raw.contexts || p in l.owned.contexts || p in l.owned.cancels
  }

  /** What the allocator promises of a new box. */
  predicate Fresh(l: Ledger, p: Addr) {
    p != 0 && !Boxed(l, p)
  }

  predicate HasRoom(l: Ledger) {
    |l.ring.sq| < l.cfg.entries
  }

  function Push(r: Ring, st: StagedContext, body: Body): Ring {
    r.(staged := r.staged + [st], sq := r.sq + [Sqe(st.p, body)])
  }

  // ----- Raw submissions ----------------------------------------------------------------------

  function Register(l: Ledger, sub: SubId, entries: seq<nat>): Ledger {
    l.(subs := l.subs[sub := Sub.New()],
       cursors := l.cursors[sub := Cursor(entries, 0, None, true)],
       flags := l.flags.(registry := l.flags.registry + {sub}, live := l.flags.live + {sub}))
  }

  function SetSub(l: Ledger, sub: SubId, st: Sub.Submission): Ledger {
    l.(subs := l.subs[sub := st])
  }

  function SetCursor(l: Ledger, sub: SubId, c: Cursor): Ledger {
    l.(cursors := l.cursors[sub := c])
  }

  /** `iterator.next()` returned an item. */
  function Yield(c: Cursor): Cursor
    requires c.next < |c.entries|
  {
    c.(next := c.next + 1, pending := Some(c.next))
  }

  function FinishIterator(st: Sub.Submission): Sub.Submission {
    st.(iteratorFinished := true, waiters := st.waiters.(admission := false))
  }

  /** The admission waiter is registered, or taken out and woken. */
  function WaitAdmission(st: Sub.Submission, waiting: bool): Sub.Submission {
    st.(waiters := st.waiters.(admission := waiting))
  }

  function CountOriginals(st: Sub.Submission): Sub.Submission {
    st.(counts := st.counts.(originals := st.counts.originals + 1))
  }

  function CountCancels(st: Sub.Submission): Sub.Submission {
    st.(counts := st.counts.(cancels := st.counts.cancels + 1))
  }

  function CountAccepted(st: Sub.Submission): Sub.Submission {
    st.(counts := st.counts.(accepted := st.counts.accepted + 1), waiters := st.waiters.(admission := false))
  }

  /** The pending item of `sub` gets box `p` and an SQ slot. */
  function StageOriginal(l: Ledger, sub: SubId, p: Addr): Ledger
    requires sub in l.subs && sub in l.cursors
    requires l.cursors[sub].pending.Some? && l.cursors[sub].pending.value < |l.cursors[sub].entries|
  {
    var c := l.cursors[sub];
    var i := c.pending.value;
    l.(raw := l.raw.(contexts := l.raw.contexts[p :=
         RawContext(Original, S.Staged, i, c.entries[i], sub, None, false, false)]),
       ring := Push(l.ring, Raw(p), Caller(sub, i)),
       cursors := l.cursors[sub := c.(pending := None)],
       subs := l.subs[sub := CountOriginals(l.subs[sub])])
  }

  predicate NeedsCancel(contexts: map<Addr, RawContext>, p: Addr) {
    p in contexts && contexts[p].kind == Original && contexts[p].phase != S.Terminal && !contexts[p].cancelQueued
  }

  /** One target of the second section of `request_cancel`. */
  function QueueCancel(l: Ledger, p: Addr): Ledger
    requires p in l.raw.contexts && l.raw.contexts[p].sub in l.subs
  {
    var x := l.raw.contexts[p];
    l.(raw := RawSide(l.raw.contexts[p := x.(cancelQueued := true)],
                      l.raw.cancelQueue + [CancelCommand(p, x.index, x.userData, x.sub)]),
       subs := l.subs[x.sub := CountCancels(l.subs[x.sub])])
  }

  /** One iteration of `stage_cancellations` that finds room in the SQ. */
  function StageCancel(l: Ledger, p: Addr): Ledger
    requires l.raw.cancelQueue != []
  {
    var c := l.raw.cancelQueue[0];
    l.(raw := RawSide(
         l.raw.contexts[p := RawContext(Cancel, S.Staged, c.index, c.userData, c.sub, Some(c.target), false, false)],
         l.raw.cancelQueue[1..]),
       ring := Push(l.ring, Raw(p), AsyncCancel(c.target)))
  }

  // ----- Owned operations -----------------------------------------------------------------------

  function Enqueue(l: Ledger, op: Op): Ledger {
    l.(ops := l.ops.(queue := l.ops.queue + [op], accepted := l.ops.accepted + {op}))
  }

  predicate OwnedTarget(contexts: map<Addr, OwnedContext>, op: Op, t: Addr) {
    t in contexts && contexts[t].control == op && contexts[t].phase != S.Terminal && !contexts[t].cancelQueued
  }

  /** The data section of `request_owned_cancel`, where `t` is what `find_map` returned. */
  function CancelOwned(l: Ledger, t: Option<Addr>): Ledger
    requires t.Some? ==> t.value in l.owned.contexts
  {
    match t
    case None => l
    case Some(p) =>
      l.(owned := l.owned.(contexts := l.owned.contexts[p := l.owned.contexts[p].(cancelQueued := true)],
                           cancelQueue := l.owned.cancelQueue + [p]))
  }

  /** One iteration of `stage_owned_cancellations` that finds room in the SQ. */
  function StageOwnedCancel(l: Ledger, p: Addr): Ledger
    requires l.owned.cancelQueue != []
  {
    var t := l.owned.cancelQueue[0];
    l.(owned := l.owned.(cancels := l.owned.cancels[p := OwnedCancelContext(S.Staged, t)],
                         cancelQueue := l.owned.cancelQueue[1..]),
       ring := Push(l.ring, OwnedCancel(p), AsyncCancel(t)))
  }

  /** The next operation of `stage_owned`: a pushed-back one first, then the producer queue. */
  function NextOwned(o: Ops): Op
    requires o.pending != [] || o.queue != []
  {
    if o.pending != [] then o.pending[0] else o.queue[0]
  }

  /** Why a popped operation fails instead of being staged. */
  function Refusal(l: Ledger, op: Op): Option<OwnedOutcome> {
    if l.flags.shutdown then Some(Closed)
    else if op in l.ops.flagged then Some(Cancelled)
    else if op.opcode !in l.cfg.supported then Some(Unsupported)
    else None
  }

  /** The pop and the three checks of one iteration of `stage_owned`. */
  function PopOwned(l: Ledger): Ledger
    requires l.ops.pending != [] || l.ops.queue != []
  {
    var op := NextOwned(l.ops);
    var refusal := Refusal(l, op);
    l.(ops := l.ops.(
         pending := if l.ops.pending != [] then l.ops.pending[1..] else [],
         queue := if l.ops.pending != [] then l.ops.queue else l.ops.queue[1..],
         staging := if refusal.None? then Some(op) else None,
         held := if refusal.None? then l.ops.held else l.ops.held + [Finish(op, refusal.value)]))
  }

  /** The push of one iteration of `stage_owned` that finds room in the SQ. */
  function StageOwned(l: Ledger, p: Addr): Ledger
    requires l.ops.staging.Some?
  {
    var op := l.ops.staging.value;
    l.(owned := l.owned.(contexts := l.owned.contexts[p := OwnedContext(S.Staged, op, Some(op), false, false)]),
       ring := Push(l.ring, Owned(p), Work(op)),
       ops := l.ops.(staging := None))
  }

  /** The push that finds the SQ full: the operation returns to the front. */
  function PushBack(l: Ledger): Ledger
    requires l.ops.staging.Some?
  {
    l.(ops := l.ops.(staging := None, pending := [l.ops.staging.value] + l.ops.pending))
  }

  /** `handler.complete` or `handler.fail` on the next operation the run loop holds. */
  function FinishHeld(l: Ledger): Ledger
    requires l.ops.held != []
  {
    l.(ops := l.ops.(held := l.ops.held[1..], finished := l.ops.finished + [l.ops.held[0]]))
  }

  // ----- Kernel and completion queue ------------------------------------------------------------

  /** The kernel takes the oldest SQE. */
  function AcceptFront(r: Ring): Ring
    requires r.sq != [] && r.staged != []
  {
    r.(staged := r.staged[1..], sq := r.sq[1..], inflight := r.inflight[r.sq[0].userData := r.sq[0].body])
  }

  /** One entry of the accepted prefix in `submit_staged`. */
  function Accept(l: Ledger): Outcome<Ledger>
    requires l.ring.sq != []
  {
    if l.ring.staged == [] then Abort("kernel accepted unstaged SQEs")
    else
      match l.ring.staged[0]
      case Raw(p) => AcceptRaw(l, p)
      case Owned(p) => AcceptOwned(l, p)
      case OwnedCancel(p) => AcceptOwnedCancel(l, p)
  }

  function AcceptRaw(l: Ledger, p: Addr): Outcome<Ledger>
    requires l.ring.sq != [] && l.ring.staged != []
  {
    if p !in l.raw.contexts then Abort("staged raw context disappeared")
    else if l.raw.contexts[p].phase != S.Staged then Abort("raw context submitted twice")
    else
      var x := l.raw.contexts[p];
      Done(l.(raw := l.raw.(contexts := l.raw.contexts[p := x.(phase := S.Submitted)]),
              ring := AcceptFront(l.ring),
              subs := AcceptSubs(l.subs, x)))
  }

  function AcceptSubs(subs: map<SubId, Sub.Submission>, x: RawContext): map<SubId, Sub.Submission> {
    if x.kind == Original && x.sub in subs then subs[x.sub := CountAccepted(subs[x.sub])] else subs
  }

  function AcceptOwned(l: Ledger, p: Addr): Outcome<Ledger>
    requires l.ring.sq != [] && l.ring.staged != []
  {
    if p !in l.owned.contexts then Abort("staged owned context disappeared")
    else if l.owned.contexts[p].phase != S.Staged then Abort("owned context submitted twice")
    else
      Done(l.(owned := l.owned.(contexts := l.owned.contexts[p := l.owned.contexts[p].(phase := S.Submitted)]),
              ring := AcceptFront(l.ring)))
  }

  function AcceptOwnedCancel(l: Ledger, p: Addr): Outcome<Ledger>
    requires l.ring.sq != [] && l.ring.staged != []
  {
    if p !in l.owned.cancels then Abort("staged owned cancellation disappeared")
    else if l.owned.cancels[p].phase != S.Staged then Abort("owned cancellation submitted twice")
    else
      Done(l.(owned := l.owned.(cancels := l.owned.cancels[p := l.owned.cancels[p].(phase := S.Submitted)]),
              ring := AcceptFront(l.ring)))
  }

  /** The kernel posts a CQE for an entry it holds. */
  function Post(l: Ledger, c: S.Cqe): Ledger {
    l.(ring := l.ring.(cq := l.ring.cq + [c],
                       inflight := if c.more then l.ring.inflight else l.ring.inflight - {c.userData}))
  }

  /** The pass takes the oldest `n` CQEs. */
  function Reap(l: Ledger, n: nat): Ledger
    requires n <= |l.ring.cq|
  {
    l.(ring := l.ring.(batch := l.ring.cq[..n], cq := l.ring.cq[n..]))
  }

  function Drop(r: Ring): Ring
    requires r.batch != []
  {
    r.(batch := r.batch[1..])
  }

  /** `dispatch` of the next reaped CQE. */
  function Dispatch(l: Ledger): Outcome<Ledger>
    requires l.ring.batch != []
  {
    var c := l.ring.batch[0];
    if c.userData == 0 then Abort("null CQE context pointer")
    else if c.userData in l.raw.contexts then DispatchRaw(l, c)
    else if c.userData in l.owned.contexts then DispatchOwned(l, c)
    else if c.userData in l.owned.cancels then DispatchOwnedCancel(l, c)
    else Abort("unknown or duplicate CQE pointer")
  }

  function DispatchRaw(l: Ledger, c: S.Cqe): Outcome<Ledger>
    requires l.ring.batch != [] && c.userData in l.raw.contexts
  {
    var x := l.raw.contexts[c.userData];
    if x.phase != S.Submitted then Abort("CQE for unsubmitted context")
    else if x.sub !in l.subs then Abort("context without submission")
    else if x.kind == Original then Done(DispatchOriginal(l, c))
    else if c.more then Abort("multishot cancellation CQE")
    else if x.target.None? then Abort("cancel context without target")
    else if x.target.value == c.userData || x.target.value !in l.raw.contexts then Abort("cancel target disappeared")
    else Done(DispatchCancel(l, c))
  }

  /** The completion the caller sees: its own user data and the position of its SQE. */
  function Delivered(x: RawContext, c: S.Cqe): Sub.Completion {
    Sub.Completion(x.index, x.userData, c.result, c.more)
  }

  function RetireOriginal(contexts: map<Addr, RawContext>, p: Addr, more: bool): map<Addr, RawContext>
    requires p in contexts
  {
    var x := contexts[p];
    if more then contexts
    else if x.cancelQueued && !x.cancelSeen then contexts[p := x.(phase := S.Terminal)]
    else contexts - {p}
  }

  function DispatchOriginal(l: Ledger, c: S.Cqe): Ledger
    requires l.ring.batch != [] && c.userData in l.raw.contexts && l.raw.contexts[c.userData].sub in l.subs
  {
    var x := l.raw.contexts[c.userData];
    l.(raw := l.raw.(contexts := RetireOriginal(l.raw.contexts, c.userData, c.more)),
       ring := Drop(l.ring),
       subs := l.subs[x.sub := Sub.OnOriginal(l.subs[x.sub], Delivered(x, c), l.cfg.limit)])
  }

  function RetireCancel(contexts: map<Addr, RawContext>, p: Addr, t: Addr): map<Addr, RawContext>
    requires p in contexts && t in contexts && t != p
  {
    var rest := contexts - {p};
    if rest[t].phase == S.Terminal then rest - {t} else rest[t := rest[t].(cancelSeen := true)]
  }

  function DispatchCancel(l: Ledger, c: S.Cqe): Ledger
    requires l.ring.batch != [] && c.userData in l.raw.contexts && l.raw.contexts[c.userData].sub in l.subs
    requires l.raw.contexts[c.userData].target.Some?
    requires l.raw.contexts[c.userData].target.value in l.raw.contexts
    requires l.raw.contexts[c.userData].target.value != c.userData
  {
    var x := l.raw.contexts[c.userData];
    l.(raw := l.raw.(contexts := RetireCancel(l.raw.contexts, c.userData, x.target.value)),
       ring := Drop(l.ring),
       subs := l.subs[x.sub := Sub.OnCancel(l.subs[x.sub], Delivered(x, c), l.cfg.limit)])
  }

  function RetireOwned(contexts: map<Addr, OwnedContext>, p: Addr): map<Addr, OwnedContext>
    requires p in contexts
  {
    var x := contexts[p];
    if x.cancelQueued && !x.cancelSeen then contexts[p := x.(phase := S.Terminal, handler := None)]
    else contexts - {p}
  }

  function DispatchOwned(l: Ledger, c: S.Cqe): Outcome<Ledger>
    requires l.ring.batch != [] && c.userData in l.owned.contexts
  {
    var x := l.owned.contexts[c.userData];
    if x.phase != S.Submitted then Abort("CQE for unsubmitted owned context")
    else if c.more then Abort("multishot completion-native CQE")
    else if x.handler.None? then Abort("owned handler completed twice")
    else
      Done(l.(owned := l.owned.(contexts := RetireOwned(l.owned.contexts, c.userData)),
              ring := Drop(l.ring),
              ops := l.ops.(held := l.ops.held + [Finish(x.handler.value, Completed(c.result))])))
  }

  function SeeOwned(contexts: map<Addr, OwnedContext>, t: Addr): map<Addr, OwnedContext>
    requires t in contexts
  {
    if contexts[t].phase == S.Terminal then contexts - {t} else contexts[t := contexts[t].(cancelSeen := true)]
  }

  function DispatchOwnedCancel(l: Ledger, c: S.Cqe): Outcome<Ledger>
    requires l.ring.batch != [] && c.userData in l.owned.cancels
  {
    var x := l.owned.cancels[c.userData];
    if x.phase != S.Submitted then Abort("CQE for unsubmitted owned cancellation")
    else if c.more then Abort("multishot owned cancellation CQE")
    else if x.target !in l.owned.contexts then Abort("owned cancel target disappeared")
    else
      Done(l.(owned := l.owned.(contexts := SeeOwned(l.owned.contexts, x.target),
                                cancels := l.owned.cancels - {c.userData}),
              ring := Drop(l.ring)))
  }

  // ----- The transition system ------------------------------------------------------------------

  datatype Action =
    // capability objects of one submission
    | DoRegister(sub: SubId, entries: seq<nat>)
    | DoRelease(sub: SubId)
    | DoPrune(sub: SubId)
    | DoYield(sub: SubId)
    | DoFinishIterator(sub: SubId)
    | DoStageOriginal(sub: SubId, p: Addr)
    | DoAwaitAdmission(sub: SubId)
    | DoWakeAdmission(sub: SubId)
    | DoCloseCursor(sub: SubId)
    | DoRequestDelivery(sub: SubId, d: Sub.Delivery)
    | DoPollNext(sub: SubId)
    | DoPollNextCancel(sub: SubId)
    | DoPollDrained(sub: SubId)
    | DoQueueCancel(p: Addr)
    // owned futures
    | DoEnqueue(op: Op)
    | DoFlag(op: Op)
    | DoCancelOwned(op: Op, t: Option<Addr>, dropping: bool)
    // run loop
    | DoStageCancel(p: Addr)
    | DoStageOwnedCancel(p: Addr)
    | DoPopOwned
    | DoStageOwned(p: Addr)
    | DoPushBack
    | DoAccept
    | DoReap(n: nat)
    | DoDispatch
    | DoFinishHeld
    // kernel
    | DoPost(c: S.Cqe)
    // shutdown
    | DoCloseAdmission
    | DoShutdown
    | DoSwept(sub: SubId)

  predicate Unlocked(l: Ledger) {
    l.ops.staging.None?
  }

  predicate HasSub(l: Ledger, sub: SubId) {
    sub in l.subs && sub in l.cursors
  }

  /** Whether some box or command holds a strong reference to the submission. */
  ghost predicate Referenced(raw: RawSide, sub: SubId) {
    || (exists p :: p in raw.contexts && raw.contexts[p].sub == sub)
    || (exists i :: 0 <= i < |raw.cancelQueue| && raw.cancelQueue[i].sub == sub)
  }

  /** The guard shared by the steps of `admit`: the lock, the accepting flag, a live future. */
  predicate Admitting(l: Ledger, sub: SubId) {
    Unlocked(l) && l.flags.accepting && HasSub(l, sub) && l.cursors[sub].active
  }

  predicate CanYield(l: Ledger, sub: SubId) {
    Admitting(l, sub) && l.cursors[sub].pending.None? && l.cursors[sub].next < |l.cursors[sub].entries|
  }

  predicate CanFinishIterator(l: Ledger, sub: SubId) {
    Admitting(l, sub) && l.cursors[sub].pending.None? && l.cursors[sub].next == |l.cursors[sub].entries|
  }

  /** The poll of a live future that found neither failure nor success. */
  predicate CanAwaitAdmission(l: Ledger, sub: SubId) {
    && HasSub(l, sub) && l.cursors[sub].active && l.subs[sub].buffers.delivery == Sub.Open
    && !(l.subs[sub].iteratorFinished && l.subs[sub].counts.accepted == l.subs[sub].counts.originals)
  }

  /** `admit`, and the waking of those who wait for it, leave the SQ to owned work that wants it. */
  predicate OwnedFirst(l: Ledger) {
    l.ops.pending != [] || l.owned.cancelQueue != [] || l.ops.queue != []
  }

  predicate CanStageOriginal(l: Ledger, sub: SubId, p: Addr) {
    && Admitting(l, sub) && Fresh(l, p) && HasRoom(l)
    && l.cursors[sub].pending.Some? && l.cursors[sub].pending.value < |l.cursors[sub].entries|
  }

  predicate CanQueueCancel(l: Ledger, p: Addr) {
    Unlocked(l) && NeedsCancel(l.raw.contexts, p) && l.raw.contexts[p].sub in l.subs
  }

  ghost predicate CanCancelOwned(l: Ledger, op: Op, t: Option<Addr>, dropping: bool) {
    && Unlocked(l)
    && (match t
        case Some(p) => OwnedTarget(l.owned.contexts, op, p)
        case None => forall p :: !OwnedTarget(l.owned.contexts, op, p))
    && (dropping ==> op in l.ops.flagged)
  }

  predicate CanStageCancel(l: Ledger, p: Addr) {
    Unlocked(l) && l.raw.cancelQueue != [] && Fresh(l, p) && HasRoom(l)
  }

  predicate CanStageOwnedCancel(l: Ledger, p: Addr) {
    Unlocked(l) && l.owned.cancelQueue != [] && Fresh(l, p) && HasRoom(l)
  }

  predicate CanPopOwned(l: Ledger) {
    Unlocked(l) && (l.ops.pending != [] || l.ops.queue != [])
  }

  predicate CanStageOwned(l: Ledger, p: Addr) {
    l.ops.staging.Some? && Fresh(l, p) && HasRoom(l)
  }

  predicate CanReap(l: Ledger, n: nat) {
    Unlocked(l) && l.ring.batch == [] && n <= |l.ring.cq|
  }

  predicate CanPost(l: Ledger, c: S.Cqe) {
    c.userData in l.ring.inflight && (c.more ==> l.ring.inflight[c.userData].Caller?)
  }

  ghost predicate CanSwept(l: Ledger, sub: SubId) {
    Unlocked(l) && forall p | NeedsCancel(l.raw.contexts, p) :: l.raw.contexts[p].sub != sub
  }

  ghost predicate Enabled(l: Ledger, a: Action) {
    match a
    case DoRegister(sub, entries) => Unlocked(l) && sub !in l.subs && sub !in l.cursors
    case DoRelease(sub) => HasSub(l, sub) && !l.cursors[sub].active
    case DoPrune(sub) => Unlocked(l) && sub !in l.flags.live && !Referenced(l.raw, sub)
    case DoYield(sub) => CanYield(l, sub)
    case DoFinishIterator(sub) => CanFinishIterator(l, sub)
    case DoStageOriginal(sub, p) => CanStageOriginal(l, sub, p)
    case DoAwaitAdmission(sub) => CanAwaitAdmission(l, sub)
    case DoWakeAdmission(sub) => HasSub(l, sub)
    case DoCloseCursor(sub) => HasSub(l, sub)
    case DoRequestDelivery(sub, d) => HasSub(l, sub) && d != Sub.Open
    case DoPollNext(sub) => HasSub(l, sub) && l.subs[sub].iteratorFinished
    case DoPollNextCancel(sub) => HasSub(l, sub)
    case DoPollDrained(sub) => HasSub(l, sub)
    case DoQueueCancel(p) => CanQueueCancel(l, p)
    case DoEnqueue(op) => l.flags.ownedAdmission && op !in l.ops.accepted
    case DoFlag(op) => op in l.ops.accepted
    case DoCancelOwned(op, t, dropping) => CanCancelOwned(l, op, t, dropping)
    case DoStageCancel(p) => CanStageCancel(l, p)
    case DoStageOwnedCancel(p) => CanStageOwnedCancel(l, p)
    case DoPopOwned => CanPopOwned(l)
    case DoStageOwned(p) => CanStageOwned(l, p)
    case DoPushBack => l.ops.staging.Some? && !HasRoom(l)
    case DoAccept => Unlocked(l) && l.ring.sq != []
    case DoReap(n) => CanReap(l, n)
    case DoDispatch => Unlocked(l) && l.ring.batch != []
    case DoFinishHeld => l.ops.held != []
    case DoPost(c) => CanPost(l, c)
    case DoCloseAdmission => true
    case DoShutdown => Unlocked(l) && !l.flags.ownedAdmission && !l.flags.shutdown
    case DoSwept(sub) => CanSwept(l, sub)
  }

  /** The controls of the owned contexts that shutdown has to cancel. */
  function LiveControls(contexts: map<Addr, OwnedContext>): set<Op> {
    set p | p in contexts && contexts[p].phase != S.Terminal :: contexts[p].control
  }

  ghost function Apply(l: Ledger, a: Action): Outcome<Ledger>
    requires Enabled(l, a)
  {
    match a
    case DoRegister(sub, entries) => Done(Register(l, sub, entries))
    case DoRelease(sub) => Done(l.(flags := l.flags.(live := l.flags.live - {sub})))
    case DoPrune(sub) => Done(l.(flags := l.flags.(registry := l.flags.registry - {sub})))
    case DoYield(sub) => Done(SetCursor(l, sub, Yield(l.cursors[sub])))
    case DoFinishIterator(sub) => Done(SetSub(l, sub, FinishIterator(l.subs[sub])))
    case DoStageOriginal(sub, p) => Done(StageOriginal(l, sub, p))
    case DoAwaitAdmission(sub) => Done(SetSub(l, sub, WaitAdmission(l.subs[sub], true)))
    case DoWakeAdmission(sub) => Done(SetSub(l, sub, WaitAdmission(l.subs[sub], false)))
    case DoCloseCursor(sub) => Done(SetCursor(l, sub, l.cursors[sub].(active := false, pending := None)))
    case DoRequestDelivery(sub, d) => Done(SetSub(l, sub, Sub.RequestDelivery(l.subs[sub], d)))
    case DoPollNext(sub) => Done(SetSub(l, sub, Sub.PollNext(l.subs[sub]).0))
    case DoPollNextCancel(sub) => Done(SetSub(l, sub, Sub.PollNextCancel(l.subs[sub]).0))
    case DoPollDrained(sub) => Done(SetSub(l, sub, Sub.PollDrained(l.subs[sub]).0))
    case DoQueueCancel(p) => Done(QueueCancel(l, p))
    case DoEnqueue(op) => Done(Enqueue(l, op))
    case DoFlag(op) => Done(l.(ops := l.ops.(flagged := l.ops.flagged + {op})))
    case DoCancelOwned(op, t, dropping) =>
      var m := CancelOwned(l, t);
      Done(if dropping then m.(ops := m.ops.(dropped := m.ops.dropped + {op}))
           else m.(flags := m.flags.(sweepOps := m.flags.sweepOps - {op})))
    case DoStageCancel(p) => Done(StageCancel(l, p))
    case DoStageOwnedCancel(p) => Done(StageOwnedCancel(l, p))
    case DoPopOwned => Done(PopOwned(l))
    case DoStageOwned(p) => Done(StageOwned(l, p))
    case DoPushBack => Done(PushBack(l))
    case DoAccept => Accept(l)
    case DoReap(n) => Done(Reap(l, n))
    case DoDispatch => Dispatch(l)
    case DoFinishHeld => Done(FinishHeld(l))
    case DoPost(c) => Done(Post(l, c))
    case DoCloseAdmission => Done(l.(flags := l.flags.(ownedAdmission := false)))
    case DoShutdown =>
      Done(l.(flags := l.flags.(accepting := false, shutdown := true, sweepSubs := l.flags.registry,
                                sweepOps := LiveControls(l.owned.contexts))))
    case DoSwept(sub) => Done(l.(flags := l.flags.(sweepSubs := l.flags.sweepSubs - {sub})))
  }
}
