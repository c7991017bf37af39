/** How a ledger projects onto address slots and cancellation pairs, and what keeps the projection exact. */
module Shape {
  import opened Prelude
  import opened Ledger
  import S = Slots
  import P = Pairs

  // ----- Boxes --------------------------------------------------------------------------------------

  datatype Tag = RawOriginal | RawCancel | OwnedOriginal | OwnedCancellation

  /** What the ring needs to know of a box: which map holds it, its phase, and what its SQE asks for. */
  datatype Box = Box(tag: Tag, phase: S.Phase, body: Body)

  function RawBox(x: RawContext): Box {
    Box(if x.kind == Original then RawOriginal else RawCancel, x.phase,
        if x.target.Some? then AsyncCancel(x.target.value) else Caller(x.sub, x.index))
  }

  function OwnedBox(x: OwnedContext): Box {
    Box(OwnedOriginal, x.phase, Work(x.control))
  }

  function OwnedCancelBox(x: OwnedCancelContext): Box {
    Box(OwnedCancellation, x.phase, AsyncCancel(x.target))
  }

  function BoxMap(rc: map<Addr, RawContext>, oc: map<Addr, OwnedContext>, cc: map<Addr, OwnedCancelContext>):
    (m: map<Addr, Box>)
    ensures m.Keys == rc.Keys + oc.Keys + cc.Keys
  {
    map a | a in rc.Keys + oc.Keys + cc.Keys ::
      if a in rc then RawBox(rc[a]) else if a in oc then OwnedBox(oc[a]) else OwnedCancelBox(cc[a])
  }

  function Boxes(l: Ledger): map<Addr, Box> {
    BoxMap(l.raw.contexts, l.owned.contexts, l.owned.cancels)
  }

  lemma BoxRaw(rc: map<Addr, RawContext>, oc: map<Addr, OwnedContext>, cc: map<Addr, OwnedCancelContext>,
               p: Addr, x: RawContext)
    ensures BoxMap(rc[p := x], oc, cc) == BoxMap(rc, oc, cc)[p := RawBox(x)]
  {
  }

  lemma BoxOwned(rc: map<Addr, RawContext>, oc: map<Addr, OwnedContext>, cc: map<Addr, OwnedCancelContext>,
                 p: Addr, x: OwnedContext)
    requires p !in rc
    ensures BoxMap(rc, oc[p := x], cc) == BoxMap(rc, oc, cc)[p := OwnedBox(x)]
  {
  }

  lemma BoxOwnedCancel(rc: map<Addr, RawContext>, oc: map<Addr, OwnedContext>, cc: map<Addr, OwnedCancelContext>,
                       p: Addr, x: OwnedCancelContext)
    requires p !in rc && p !in oc
    ensures BoxMap(rc, oc, cc[p := x]) == BoxMap(rc, oc, cc)[p := OwnedCancelBox(x)]
  {
  }

  lemma BoxRawGone(rc: map<Addr, RawContext>, oc: map<Addr, OwnedContext>, cc: map<Addr, OwnedCancelContext>, p: Addr)
    requires p !in oc && p !in cc
    ensures BoxMap(rc - {p}, oc, cc) == BoxMap(rc, oc, cc) - {p}
  {
  }

  lemma BoxOwnedGone(rc: map<Addr, RawContext>, oc: map<Addr, OwnedContext>, cc: map<Addr, OwnedCancelContext>, p: Addr)
    requires p !in rc && p !in cc
    ensures BoxMap(rc, oc - {p}, cc) == BoxMap(rc, oc, cc) - {p}
  {
  }

  lemma BoxOwnedCancelGone(
    rc: map<Addr, RawContext>, oc: map<Addr, OwnedContext>, cc: map<Addr, OwnedCancelContext>, p: Addr)
    requires p !in rc && p !in oc
    ensures BoxMap(rc, oc, cc - {p}) == BoxMap(rc, oc, cc) - {p}
  {
  }

  // ----- Slots ----------------------------------------------------------------------------------------

  function Phases(boxes: map<Addr, Box>): map<Addr, S.Phase> {
    map a | a in boxes :: boxes[a].phase
  }

  function Addrs(staged: seq<StagedContext>): (r: seq<Addr>)
    ensures |r| == |staged|
  {
    seq(|staged|, i requires 0 <= i < |staged| => staged[i].p)
  }

  function SlotsOf(r: Ring, boxes: map<Addr, Box>): S.Slots {
    S.Slots(Phases(boxes), Addrs(r.staged), r.inflight.Keys, r.batch + r.cq)
  }

  lemma PhasesPut(boxes: map<Addr, Box>, p: Addr, b: Box)
    ensures Phases(boxes[p := b]) == Phases(boxes)[p := b.phase]
  {
  }

  lemma PhasesGone(boxes: map<Addr, Box>, p: Addr)
    ensures Phases(boxes - {p}) == Phases(boxes) - {p}
  {
  }

  lemma AddrsPush(staged: seq<StagedContext>, st: StagedContext)
    ensures Addrs(staged + [st]) == Addrs(staged) + [st.p]
  {
  }

  lemma AddrsPop(staged: seq<StagedContext>)
    requires staged != []
    ensures Addrs(staged[1..]) == Addrs(staged)[1..] && Addrs(staged)[0] == staged[0].p
  {
  }

  // ----- Pairs ----------------------------------------------------------------------------------------

  function RawOriginals(rc: map<Addr, RawContext>): map<Addr, P.Original> {
    map p | p in rc && rc[p].kind == Original :: P.Original(rc[p].phase == S.Terminal, rc[p].cancelQueued, rc[p].cancelSeen)
  }

  function RawCancels(rc: map<Addr, RawContext>): map<Addr, Addr> {
    map p | p in rc && rc[p].kind == Cancel && rc[p].target.Some? :: rc[p].target.value
  }

  function Targets(q: seq<CancelCommand>): (r: seq<Addr>)
    ensures |r| == |q|
  {
    seq(|q|, i requires 0 <= i < |q| => q[i].target)
  }

  function RawPairs(raw: RawSide): P.Pairs {
    P.Pairs(RawOriginals(raw.contexts), Targets(raw.cancelQueue), RawCancels(raw.contexts))
  }

  function OwnedOriginals(oc: map<Addr, OwnedContext>): map<Addr, P.Original> {
    map p | p in oc :: P.Original(oc[p].phase == S.Terminal, oc[p].cancelQueued, oc[p].cancelSeen)
  }

  function OwnedCancels(cc: map<Addr, OwnedCancelContext>): map<Addr, Addr> {
    map p | p in cc :: cc[p].target
  }

  function OwnedPairs(o: OwnedSide): P.Pairs {
    P.Pairs(OwnedOriginals(o.contexts), o.cancelQueue, OwnedCancels(o.cancels))
  }

  lemma OriginalPut(rc: map<Addr, RawContext>, p: Addr, x: RawContext)
    requires x.kind == Original && (p in rc ==> rc[p].kind == Original)
    ensures RawOriginals(rc[p := x])
         == RawOriginals(rc)[p := P.Original(x.phase == S.Terminal, x.cancelQueued, x.cancelSeen)]
    ensures RawCancels(rc[p := x]) == RawCancels(rc)
  {
  }

  lemma CancelPut(rc: map<Addr, RawContext>, p: Addr, x: RawContext)
    requires x.kind == Cancel && x.target.Some? && (p in rc ==> rc[p].kind == Cancel)
    ensures RawOriginals(rc[p := x]) == RawOriginals(rc)
    ensures RawCancels(rc[p := x]) == RawCancels(rc)[p := x.target.value]
  {
  }

  lemma RawGone(rc: map<Addr, RawContext>, p: Addr)
    ensures RawOriginals(rc - {p}) == RawOriginals(rc) - {p}
    ensures RawCancels(rc - {p}) == RawCancels(rc) - {p}
  {
  }

  lemma OwnedPut(oc: map<Addr, OwnedContext>, p: Addr, x: OwnedContext)
    ensures OwnedOriginals(oc[p := x])
         == OwnedOriginals(oc)[p := P.Original(x.phase == S.Terminal, x.cancelQueued, x.cancelSeen)]
  {
  }

  lemma OwnedGone(oc: map<Addr, OwnedContext>, p: Addr)
    ensures OwnedOriginals(oc - {p}) == OwnedOriginals(oc) - {p}
  {
  }

  lemma OwnedCancelPut(cc: map<Addr, OwnedCancelContext>, p: Addr, x: OwnedCancelContext)
    ensures OwnedCancels(cc[p := x]) == OwnedCancels(cc)[p := x.target]
  {
  }

  lemma OwnedCancelGone(cc: map<Addr, OwnedCancelContext>, p: Addr)
    ensures OwnedCancels(cc - {p}) == OwnedCancels(cc) - {p}
  {
  }

  // ----- Invariants -----------------------------------------------------------------------------------

  /** The three context maps never share an address. */
  ghost predicate Disjoint(rc: map<Addr, RawContext>, oc: map<Addr, OwnedContext>, cc: map<Addr, OwnedCancelContext>) {
    && (forall p | p in rc :: p !in oc && p !in cc)
    && (forall p | p in oc :: p !in cc)
  }

  ghost predicate RawShape(rc: map<Addr, RawContext>, subs: set<SubId>) {
    forall p | p in rc ::
      && rc[p].sub in subs
      && (rc[p].kind == Cancel <==> rc[p].target.Some?)
      && (rc[p].kind == Cancel ==> rc[p].phase != S.Terminal && !rc[p].cancelQueued && !rc[p].cancelSeen)
  }

  /** An owned original holds its own handler exactly until its terminal CQE. */
  ghost predicate OwnedShape(oc: map<Addr, OwnedContext>, cc: map<Addr, OwnedCancelContext>) {
    && (forall p | p in oc :: oc[p].handler == if oc[p].phase == S.Terminal then None else Some(oc[p].control))
    && (forall p | p in cc :: cc[p].phase != S.Terminal)
  }

  ghost predicate Shaped(l: Ledger) {
    && Disjoint(l.raw.contexts, l.owned.contexts, l.owned.cancels)
    && RawShape(l.raw.contexts, l.subs.Keys)
    && OwnedShape(l.owned.contexts, l.owned.cancels)
  }

  ghost predicate Tagged(st: StagedContext, boxes: map<Addr, Box>) {
    && st.p in boxes
    && match st
       case Raw(p) => boxes[p].tag in {RawOriginal, RawCancel}
       case Owned(p) => boxes[p].tag == OwnedOriginal
       case OwnedCancel(p) => boxes[p].tag == OwnedCancellation
  }

  /** The userspace SQ and its mirror agree entry by entry, and every SQE asks for what its own box says. */
  ghost predicate SqOk(r: Ring, boxes: map<Addr, Box>) {
    && |r.sq| == |r.staged|
    && (forall i | 0 <= i < |r.staged| :: Tagged(r.staged[i], boxes))
    && (forall i | 0 <= i < |r.sq| :: r.sq[i] == Sqe(r.staged[i].p, boxes[r.staged[i].p].body))
  }

  /** The kernel holds what the boxes say, and only raw originals are multishot. */
  ghost predicate KernelOk(r: Ring, boxes: map<Addr, Box>) {
    && (forall a | a in r.inflight :: a in boxes && boxes[a].body == r.inflight[a])
    && (forall i | 0 <= i < |r.batch + r.cq| && (r.batch + r.cq)[i].more ::
          (r.batch + r.cq)[i].userData in boxes && boxes[(r.batch + r.cq)[i].userData].tag == RawOriginal)
  }

  ghost predicate BodyShape(boxes: map<Addr, Box>) {
    forall a | a in boxes :: boxes[a].tag == RawOriginal <==> boxes[a].body.Caller?
  }

  ghost predicate Ringed(r: Ring, boxes: map<Addr, Box>) {
    SqOk(r, boxes) && KernelOk(r, boxes) && S.Inv(SlotsOf(r, boxes))
  }

  /** The core of the driver's invariant: shape, ring and pairs. */
  ghost predicate Core(l: Ledger) {
    && Shaped(l)
    && Ringed(l.ring, Boxes(l))
    && P.Inv(RawPairs(l.raw))
    && P.Inv(OwnedPairs(l.owned))
  }
}
