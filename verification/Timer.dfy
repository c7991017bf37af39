/**
  The timer driver: a heap of deadlines, cleaned lazily, that one task services between waits.

  The heap is the sequence of its entries in the order in which it gives them up.  Every critical
  section is one step, but for the loop of the driver's first section, which takes one step for each
  entry because polls and drops of the entries' futures may come in between.
 */
module Timer {
  import opened Prelude
  import opened ParkGate

  const U64_MAX: nat := 0xFFFF_FFFF_FFFF_FFFF

  type Key = nat
  type Thread = nat

  /** `key` stands for the shared state of the future that registered the entry. */
  datatype Entry = Entry(deadline: nat, id: nat, key: Key)

  /**
    The shared state of one `Sleep`, with the deadline and identifier it registers under.  `waiting`
    tells whether its last poll returned pending, `woken` whether its task was woken since.
   */
  datatype Sleep = Sleep(
    deadline: nat, id: Option<nat>, registered: bool, fired: bool, cancelled: bool, dropped: bool,
    waiter: bool, waiting: bool, woken: bool)

  /**
    The relative wait a pass settles on.  The time it had read when it looked at the heap and the entry
    whose deadline it took are history.
   */
  datatype Wait = Wait(duration: nat, looked: nat, chosen: Entry)

  /** `drained` tells whether this pass found the shutdown request before it looked at the heap. */
  datatype Pc =
    | NotStarted
    | Looking
    | Firing(now: nat)
    | Skipping(now: nat)
    | Waking(wait: Option<Wait>, drained: bool)
    | Checking(wait: Option<Wait>, drained: bool)
    | Deciding(wait: Option<Wait>)
    | Parking(wait: Option<Wait>, parked: nat)
    | Resumed
    | Ending(drained: bool)
    | Finished(drained: bool)
    | Retired(drained: bool)

  datatype Data = Data(timers: seq<Entry>, sleeps: map<Key, Sleep>, nextId: nat, shutdown: bool)

  /** `collected` holds the entries whose waiters the current pass has taken, in the order it took them. */
  datatype Timer = Timer(
    data: Data, now: nat, gate: Gate, native: Native, pc: Pc, collected: seq<Entry>, owing: set<Thread>)

  datatype Event =
    | Tick(d: nat)
    | Make(k: Key, deadline: nat)
    | PollSleep(k: Key)
    | TakeId(k: Key)
    | Push(t: Thread, k: Key)
    | DropSleep(t: Thread, k: Key)
    | SetShutdown(t: Thread)
    | NotifyDriver(t: Thread)
    | Start
    | Look
    | Fire
    | EndFiring
    | Skip
    | ChooseWait
    | RunWakers
    | CheckShutdown
    | ParkOrLoop
    | ReturnFrom(woken: bool)
    | MarkRunning
    | MarkTerminal
    | RetireDriver

  // ----- The order of the heap --------------------------------------------------------------------------

  datatype Ordering = Less | Equal | Greater

  function CompareNat(a: nat, b: nat): Ordering {
    if a < b then Less else if a == b then Equal else Greater
  }

  /** `TimerEntry::cmp`, written for a heap that gives up its greatest entry first. */
  function Compare(a: Entry, b: Entry): Ordering {
    if CompareNat(b.deadline, a.deadline) != Equal then CompareNat(b.deadline, a.deadline) else CompareNat(b.id, a.id)
  }

  /** The heap gives up `a` before `b`. */
  predicate Before(a: Entry, b: Entry) {
    Compare(a, b) == Greater
  }

  /** The heap gives up earlier deadlines first, and equal ones in the order of their identifiers. */
  lemma BeforeIsChronological(a: Entry, b: Entry)
    ensures Before(a, b) <==> a.deadline < b.deadline || (a.deadline == b.deadline && a.id < b.id)
    ensures Compare(a, b) == Equal <==> a.deadline == b.deadline && a.id == b.id
    ensures Compare(a, b) == Less <==> Before(b, a)
  {
  }

  ghost predicate Sorted(s: seq<Entry>) {
    forall i, j | 0 <= i < j < |s| :: Before(s[i], s[j])
  }

  function Insert(s: seq<Entry>, e: Entry): (r: seq<Entry>)
    ensures multiset(r) == multiset(s) + multiset{e}
    ensures |r| == |s| + 1
  {
    if s == [] then [e]
    else if Before(e, s[0]) then [e] + s
    else
      assert s == [s[0]] + s[1..];
      [s[0]] + Insert(s[1..], e)
  }

  lemma InsertMembers(s: seq<Entry>, e: Entry)
    ensures forall x :: x in Insert(s, e) <==> x in s || x == e
  {
    forall x
      ensures x in Insert(s, e) <==> x in s || x == e
    {
      assert x in Insert(s, e) <==> x in multiset(Insert(s, e));
      assert x in s <==> x in multiset(s);
    }
  }

  /** Inserting an entry with a new identifier keeps the heap in its order. */
  lemma {:induction false} InsertSorted(s: seq<Entry>, e: Entry)
    requires Sorted(s) && forall i | 0 <= i < |s| :: s[i].id != e.id
    ensures Sorted(Insert(s, e))
  {
    if s != [] && !Before(e, s[0]) {
      var rest := Insert(s[1..], e);
      assert forall i | 0 <= i < |s[1..]| :: s[1..][i] == s[i + 1];
      InsertSorted(s[1..], e);
      InsertMembers(s[1..], e);
      assert forall x | x in rest :: Before(s[0], x);
      assert forall i | 0 <= i < |rest| :: rest[i] in rest;
    }
  }

  // ----- Steps ------------------------------------------------------------------------------------------

  /** The driver holds the data lock for its whole first section. */
  predicate Locked(pc: Pc) {
    pc.Firing? || pc.Skipping?
  }

  /** A future is in the middle of its first pending poll from the moment it has an identifier until it is registered. */
  predicate AtRest(x: Sleep) {
    !x.dropped && (x.id.None? || x.registered)
  }

  function ModeOf(wait: Option<Wait>): Mode {
    if wait.Some? then Timed else Untimed
  }

  /** The wait until the entry is due for a pass that reads the time `now`. */
  function WaitUntil(e: Entry, now: nat): Wait {
    Wait(if now < e.deadline then e.deadline - now else 0, now, e)
  }

  predicate Enabled(s: Timer, e: Event) {
    match e
    case Tick(_) => true
    case Make(k, _) => k !in s.data.sleeps
    case PollSleep(k) => k in s.data.sleeps && AtRest(s.data.sleeps[k])
    case TakeId(k) =>
      && k in s.data.sleeps && AtRest(s.data.sleeps[k])
      && s.data.sleeps[k].id.None? && s.data.sleeps[k].waiting
    case Push(_, k) => !Locked(s.pc) && k in s.data.sleeps && s.data.sleeps[k].id.Some? && !s.data.sleeps[k].registered
    case DropSleep(_, k) => k in s.data.sleeps && AtRest(s.data.sleeps[k])
    case SetShutdown(_) => !Locked(s.pc)
    case NotifyDriver(_) => true
    case Start => s.pc == NotStarted
    case Look => s.pc == Looking
    case Fire => s.pc.Firing? && s.data.timers != [] && s.data.timers[0].deadline <= s.pc.now
    case EndFiring => s.pc.Firing? && (s.data.timers != [] ==> s.pc.now < s.data.timers[0].deadline)
    case Skip => s.pc.Skipping? && Stale(s.data)
    case ChooseWait => s.pc.Skipping? && !Stale(s.data)
    case RunWakers => s.pc.Waking?
    case CheckShutdown => s.pc.Checking?
    case ParkOrLoop => s.pc.Deciding?
    case ReturnFrom(woken) => s.pc.Parking? && CanReturn(ModeOf(s.pc.wait), s.native, woken)
    case MarkRunning => s.pc == Resumed
    case MarkTerminal => s.pc.Ending?
    case RetireDriver => s.pc.Finished?
  }

  predicate Stale(d: Data) {
    d.timers != [] && d.timers[0].key in d.sleeps && d.sleeps[d.timers[0].key].cancelled
  }

  function Put(d: Data, k: Key, x: Sleep): Data {
    d.(sleeps := d.sleeps[k := x])
  }

  /** `Sleep::poll`: ready once fired or due, whatever the driver has done so far. */
  function PollStep(x: Sleep, now: nat): Sleep {
    if x.fired || now >= x.deadline then x.(fired := true, waiting := false)
    else x.(waiter := true, waiting := true, woken := false)
  }

  /** The data section of `register`. */
  function PushStep(d: Data, k: Key): Data
    requires k in d.sleeps && d.sleeps[k].id.Some?
  {
    var x := d.sleeps[k];
    if d.shutdown then Put(d, k, x.(registered := true, cancelled := true, waiter := false))
    else
      Put(d, k, x.(registered := true)).(timers := Insert(d.timers, Entry(x.deadline, x.id.value, k)))
  }

  function Cancelled(x: Sleep): Sleep {
    x.(cancelled := true, waiter := false)
  }

  /** Shutdown cancels the state of every entry still in the heap. */
  function DrainSleeps(sleeps: map<Key, Sleep>, timers: seq<Entry>): map<Key, Sleep> {
    map k | k in sleeps :: if exists i :: 0 <= i < |timers| && timers[i].key == k then Cancelled(sleeps[k]) else sleeps[k]
  }

  /** One expired entry: its future fires unless it was cancelled, and its waiter is collected. */
  function FireSleep(x: Sleep): Sleep {
    if x.cancelled then x else x.(fired := true, waiter := false)
  }

  function WakeSleeps(sleeps: map<Key, Sleep>, collected: seq<Entry>): map<Key, Sleep> {
    map k | k in sleeps :: if exists i :: 0 <= i < |collected| && collected[i].key == k then sleeps[k].(woken := true) else sleeps[k]
  }

  function FireStep(s: Timer): Timer
    requires s.data.timers != [] && s.data.timers[0].key in s.data.sleeps
  {
    var e := s.data.timers[0];
    var x := s.data.sleeps[e.key];
    s.(data := Put(s.data, e.key, FireSleep(x)).(timers := s.data.timers[1..]),
       collected := if !x.cancelled && x.waiter then s.collected + [e] else s.collected)
  }

  function NotifyStep(s: Timer, t: Thread): Outcome<Timer> {
    match Notify(s.gate, s.native)
    case Done(r) => Done(s.(gate := r.0, native := r.1, owing := s.owing - {t}))
    case Abort(why) => Abort(why)
  }

  function Apply(s: Timer, e: Event): Outcome<Timer>
    requires Enabled(s, e)
  {
    match e
    case Tick(d) => Done(s.(now := s.now + d))
    case Make(k, deadline) =>
      Done(s.(data := Put(s.data, k, Sleep(deadline, None, false, false, false, false, false, false, false))))
    case PollSleep(k) => Done(s.(data := Put(s.data, k, PollStep(s.data.sleeps[k], s.now))))
    case TakeId(k) =>
      if s.data.nextId == U64_MAX then Abort("timer identifier exhausted")
      else Done(s.(data := Put(s.data, k, s.data.sleeps[k].(id := Some(s.data.nextId))).(nextId := s.data.nextId + 1)))
    case Push(t, k) => Done(s.(data := PushStep(s.data, k), owing := if s.data.shutdown then s.owing else s.owing + {t}))
    case DropSleep(t, k) =>
      Done(s.(data := Put(s.data, k, Cancelled(s.data.sleeps[k]).(dropped := true, waiting := false)),
              owing := if s.data.sleeps[k].registered then s.owing + {t} else s.owing))
    case SetShutdown(t) => Done(s.(data := s.data.(shutdown := true), owing := s.owing + {t}))
    case NotifyDriver(t) => NotifyStep(s, t)
    case Start => Done(s.(gate := s.gate.(phase := Running, raw := true), pc := Looking))
    case Look =>
      if s.data.shutdown then
        Done(s.(data := s.data.(sleeps := DrainSleeps(s.data.sleeps, s.data.timers), timers := []), pc := Waking(None, true)))
      else Done(s.(pc := Firing(s.now)))
    case Fire => if s.data.timers[0].key !in s.data.sleeps then Abort("entry without state") else Done(FireStep(s))
    case EndFiring => Done(s.(pc := Skipping(s.pc.now)))
    case Skip => Done(s.(data := s.data.(timers := s.data.timers[1..])))
    case ChooseWait =>
      Done(s.(pc := Waking(if s.data.timers == [] then None else Some(WaitUntil(s.data.timers[0], s.pc.now)), false)))
    case RunWakers =>
      Done(s.(data := s.data.(sleeps := WakeSleeps(s.data.sleeps, s.collected)), collected := [],
              pc := Checking(s.pc.wait, s.pc.drained)))
    case CheckShutdown => Done(s.(pc := if s.data.shutdown then Ending(s.pc.drained) else Deciding(s.pc.wait)))
    case ParkOrLoop =>
      var (gate, blocked) := TryPark(s.gate, ModeOf(s.pc.wait));
      Done(s.(gate := gate, pc := if blocked then Parking(s.pc.wait, s.now) else Looking))
    case ReturnFrom(woken) => Done(s.(native := Return(ModeOf(s.pc.wait), s.native, woken), pc := Resumed))
    case MarkRunning => Done(s.(gate := s.gate.(phase := Running), pc := Looking))
    case MarkTerminal => Done(s.(gate := s.gate.(phase := Terminal), pc := Finished(s.pc.drained)))
    case RetireDriver =>
      (match Retire(s.gate)
       case Done(g) => Done(s.(gate := g, pc := Retired(s.pc.drained)))
       case Abort(why) => Abort(why))
  }

  function Init(): Timer {
    Timer(Data([], map[], 1, false), 0, Gate(Building, false, false), Native(0, 0), NotStarted, [], {})
  }

  // ----- Invariants ---------------------------------------------------------------------------------------

  predicate EntryOf(sleeps: map<Key, Sleep>, e: Entry) {
    e.key in sleeps && sleeps[e.key].registered && sleeps[e.key].id == Some(e.id) && sleeps[e.key].deadline == e.deadline
  }

  ghost predicate IdsOk(d: Data) {
    && (forall k | k in d.sleeps && d.sleeps[k].registered :: d.sleeps[k].id.Some?)
    && (forall k | k in d.sleeps && d.sleeps[k].id.Some? :: d.sleeps[k].id.value < d.nextId)
    && (forall j, k | j in d.sleeps && k in d.sleeps && j != k && d.sleeps[j].id.Some? :: d.sleeps[j].id != d.sleeps[k].id)
    && d.nextId <= U64_MAX
  }

  predicate Live(x: Sleep) {
    x.registered && x.id.Some? && !x.fired && !x.cancelled
  }

  /** The heap is in order, every entry belongs to a future, and every live future has its entry. */
  ghost predicate HeapOk(d: Data) {
    && Sorted(d.timers)
    && (forall i | 0 <= i < |d.timers| :: EntryOf(d.sleeps, d.timers[i]))
    && (forall k | k in d.sleeps && Live(d.sleeps[k]) :: Entry(d.sleeps[k].deadline, d.sleeps[k].id.value, k) in d.timers)
  }

  /** No future fires before its deadline, and the pass works with times that have come. */
  ghost predicate TimeOk(sleeps: map<Key, Sleep>, now: nat, pc: Pc) {
    && (forall k | k in sleeps && sleeps[k].fired :: sleeps[k].deadline <= now)
    && ((pc.Firing? || pc.Skipping?) ==> pc.now <= now)
    && (HasWait(pc) && pc.wait.Some? ==> pc.wait.value.looked <= if pc.Parking? then pc.parked else now)
    && (pc.Parking? ==> pc.parked <= now)
  }

  /** Nothing in the heap that can still fire is due before the wait, counted from the look at the heap, ends. */
  ghost predicate Covered(d: Data, wait: Option<Wait>) {
    forall i | 0 <= i < |d.timers| && d.timers[i].key in d.sleeps && !d.sleeps[d.timers[i].key].cancelled ::
      wait.Some? && wait.value.looked + wait.value.duration <= d.timers[i].deadline
  }

  predicate Told(s: Timer) {
    s.gate.notified || s.owing != {}
  }

  predicate HasWait(pc: Pc) {
    pc.Waking? || pc.Checking? || pc.Deciding? || pc.Parking?
  }

  ghost predicate WaitOk(s: Timer) {
    && (HasWait(s.pc) ==> Told(s) || Covered(s.data, s.pc.wait))
    && ((s.pc.Deciding? || s.pc.Parking?) ==> s.data.shutdown ==> Told(s))
    && (s.pc.Skipping? ==> forall i | 0 <= i < |s.data.timers| :: s.pc.now < s.data.timers[i].deadline)
  }

  /** The wait lasts from the look at the heap to the deadline of the future it was chosen for. */
  predicate ChosenOk(sleeps: map<Key, Sleep>, pc: Pc) {
    HasWait(pc) && pc.wait.Some? ==>
      var w := pc.wait.value;
      EntryOf(sleeps, w.chosen) && w.looked + w.duration == w.chosen.deadline
  }

  predicate Drained(pc: Pc) {
    (pc.Waking? || pc.Checking? || pc.Ending? || pc.Finished? || pc.Retired?) && pc.drained
  }

  ghost predicate EndOk(d: Data, pc: Pc) {
    && ((pc.Ending? || pc.Finished? || pc.Retired?) ==> d.shutdown)
    && (Drained(pc) ==> d.shutdown && d.timers == [])
  }

  ghost predicate Collects(collected: seq<Entry>, k: Key) {
    exists i :: 0 <= i < |collected| && collected[i].key == k
  }

  /** A future whose task waits is registered to be woken, or was collected or woken when it fired. */
  ghost predicate WakesOk(sleeps: map<Key, Sleep>, collected: seq<Entry>) {
    forall k | k in sleeps && sleeps[k].waiting && !sleeps[k].cancelled ::
      if sleeps[k].fired then sleeps[k].woken || Collects(collected, k) else sleeps[k].waiter
  }

  /** The pass collects waiters in the order of the heap. */
  ghost predicate CollectedOk(timers: seq<Entry>, collected: seq<Entry>, pc: Pc) {
    && Sorted(collected)
    && (Locked(pc) ==> forall i, j | 0 <= i < |collected| && 0 <= j < |timers| :: Before(collected[i], timers[j]))
    && (!Locked(pc) && !pc.Waking? ==> collected == [])
  }

  function PositionOf(pc: Pc): Position {
    match pc
    case NotStarted => Unborn
    case Parking(wait, _) => Blocking(ModeOf(wait))
    case Resumed => Back
    case Finished(_) => Ended
    case Retired(_) => Gone
    case _ => Awake
  }

  ghost predicate DataOk(s: Timer) {
    && IdsOk(s.data) && HeapOk(s.data) && TimeOk(s.data.sleeps, s.now, s.pc)
    && WakesOk(s.data.sleeps, s.collected) && CollectedOk(s.data.timers, s.collected, s.pc)
  }

  ghost predicate Inv(s: Timer) {
    && DataOk(s) && WaitOk(s) && ChosenOk(s.data.sleeps, s.pc) && EndOk(s.data, s.pc)
    && GateOk(s.gate, PositionOf(s.pc), s.native.pause)
  }

  lemma InitInv()
    ensures Inv(Init())
  {
  }

  // ----- Preservation ---------------------------------------------------------------------------------------

  /** The step cannot run out of identifiers. */
  predicate HasId(s: Timer, e: Event) {
    e.TakeId? ==> s.data.nextId < U64_MAX
  }

  lemma NeverAborts(s: Timer, e: Event)
    requires IdsOk(s.data) && HeapOk(s.data) && GateOk(s.gate, PositionOf(s.pc), s.native.pause) && Enabled(s, e)
    ensures Apply(s, e).Done? <==> HasId(s, e)
  {
    assert s.data.timers != [] ==> EntryOf(s.data.sleeps, s.data.timers[0]);
  }

  /** A step that hands out no identifier: every future of `m` has the one it had, or is new and has none. */
  ghost predicate SameIds(d: Data, m: Data) {
    && m.nextId == d.nextId
    && forall k | k in m.sleeps ::
         if k in d.sleeps then m.sleeps[k].id == d.sleeps[k].id && (m.sleeps[k].registered ==> m.sleeps[k].id.Some?)
         else m.sleeps[k].id.None? && !m.sleeps[k].registered
  }

  lemma IdsSame(d: Data, m: Data)
    requires IdsOk(d) && SameIds(d, m)
    ensures IdsOk(m)
  {
  }

  lemma StepSameIds(s: Timer, e: Event)
    requires IdsOk(s.data) && Enabled(s, e) && Apply(s, e).Done? && !e.TakeId?
    ensures SameIds(s.data, Apply(s, e).value.data)
  {
    hide IdsOk;
    RegisteredNamed(s.data);
    if Outside(e) || e.Push? {
      SameIdsOutside(s, e);
    } else {
      SameIdsOwn(s, e);
    }
  }

  ghost predicate Named(d: Data) {
    forall k | k in d.sleeps && d.sleeps[k].registered :: d.sleeps[k].id.Some?
  }

  lemma RegisteredNamed(d: Data)
    requires IdsOk(d)
    ensures Named(d)
  {
  }

  lemma SameIdsOutside(s: Timer, e: Event)
    requires Named(s.data) && Enabled(s, e) && Apply(s, e).Done? && (Outside(e) || e.Push?) && !e.TakeId?
    ensures SameIds(s.data, Apply(s, e).value.data)
  {
    hide Insert;
  }

  lemma SameIdsOwn(s: Timer, e: Event)
    requires Named(s.data) && Enabled(s, e) && Apply(s, e).Done? && !(Outside(e) || e.Push?)
    ensures SameIds(s.data, Apply(s, e).value.data)
  {
  }

  lemma IdsTake(d: Data, k: Key)
    requires IdsOk(d) && k in d.sleeps && d.sleeps[k].id.None? && d.nextId < U64_MAX
    ensures IdsOk(Put(d, k, d.sleeps[k].(id := Some(d.nextId))).(nextId := d.nextId + 1))
  {
  }

  lemma IdsKept(s: Timer, e: Event)
    requires IdsOk(s.data) && Enabled(s, e) && Apply(s, e).Done?
    ensures IdsOk(Apply(s, e).value.data)
  {
    hide IdsOk;
    if e.TakeId? {
      IdsBound(s.data);
      IdsTake(s.data, e.k);
    } else {
      hide Apply;
      hide SameIds;
      StepSameIds(s, e);
      IdsSame(s.data, Apply(s, e).value.data);
    }
  }

  lemma IdsBound(d: Data)
    requires IdsOk(d)
    ensures d.nextId <= U64_MAX
  {
  }

  lemma HeapPush(d: Data, k: Key)
    requires IdsOk(d) && HeapOk(d) && k in d.sleeps && d.sleeps[k].id.Some? && !d.sleeps[k].registered
    ensures HeapOk(PushStep(d, k))
  {
    var x := d.sleeps[k];
    if d.shutdown {
      HeapFades(d, PushStep(d, k));
    } else {
      var e := Entry(x.deadline, x.id.value, k);
      OthersEntered(d, k);
      InsertSorted(d.timers, e);
      InsertMembers(d.timers, e);
      Entered(d, k, e, Insert(d.timers, e));
    }
  }

  /** The entries already in the heap belong to other futures. */
  lemma OthersEntered(d: Data, k: Key)
    requires IdsOk(d) && HeapOk(d) && k in d.sleeps && d.sleeps[k].id.Some? && !d.sleeps[k].registered
    ensures forall x | x in d.timers :: EntryOf(d.sleeps, x) && x.key != k && x.id != d.sleeps[k].id.value
  {
    hide Sorted;
  }

  lemma Entered(d: Data, k: Key, e: Entry, r: seq<Entry>)
    requires HeapOk(d) && k in d.sleeps && e == Entry(d.sleeps[k].deadline, e.id, k) && d.sleeps[k].id == Some(e.id)
    requires forall x | x in d.timers :: EntryOf(d.sleeps, x) && x.key != k
    requires Sorted(r) && forall x :: x in r <==> x in d.timers || x == e
    ensures HeapOk(Put(d, k, d.sleeps[k].(registered := true)).(timers := r))
  {
    hide Sorted;
    assert forall i | 0 <= i < |r| :: r[i] in r;
  }

  lemma HeapPop(d: Data, x: Sleep)
    requires IdsOk(d) && HeapOk(d) && d.timers != [] && d.timers[0].key in d.sleeps
    requires var y := d.sleeps[d.timers[0].key];
             x.registered == y.registered && x.id == y.id && x.deadline == y.deadline && !Live(x)
    ensures HeapOk(Put(d, d.timers[0].key, x).(timers := d.timers[1..]))
  {
    var m := Put(d, d.timers[0].key, x).(timers := d.timers[1..]);
    assert forall i | 0 <= i < |m.timers| :: m.timers[i] == d.timers[i + 1];
    forall k | k in m.sleeps && Live(m.sleeps[k])
      ensures Entry(m.sleeps[k].deadline, m.sleeps[k].id.value, k) in m.timers
    {
      var e := Entry(d.sleeps[k].deadline, d.sleeps[k].id.value, k);
      assert e in d.timers && e != d.timers[0];
      assert d.timers == [d.timers[0]] + d.timers[1..];
    }
  }

  /** The steps that change neither the heap nor what makes a future live, except to end its life. */
  ghost predicate Fades(d: Data, m: Data) {
    && m.timers == d.timers && d.sleeps.Keys <= m.sleeps.Keys
    && (forall k | k in d.sleeps && d.sleeps[k].registered ::
          m.sleeps[k].registered && m.sleeps[k].id == d.sleeps[k].id && m.sleeps[k].deadline == d.sleeps[k].deadline)
    && (forall k | k in m.sleeps && Live(m.sleeps[k]) :: k in d.sleeps && Live(d.sleeps[k]) && m.sleeps[k].id == d.sleeps[k].id)
  }

  lemma HeapFades(d: Data, m: Data)
    requires HeapOk(d) && Fades(d, m)
    ensures HeapOk(m)
  {
    forall i | 0 <= i < |m.timers|
      ensures EntryOf(m.sleeps, m.timers[i])
    {
      assert EntryOf(d.sleeps, d.timers[i]);
    }
  }

  lemma HeapKept(s: Timer, e: Event)
    requires IdsOk(s.data) && HeapOk(s.data) && Enabled(s, e) && Apply(s, e).Done?
    ensures HeapOk(Apply(s, e).value.data)
  {
    hide HeapOk;
    hide IdsOk;
    hide Fades;
    var m := Apply(s, e).value;
    match e {
      case Push(t, k) => HeapPush(s.data, k);
      case Fire => HeapPop(s.data, FireSleep(s.data.sleeps[s.data.timers[0].key]));
      case Skip =>
        var k := s.data.timers[0].key;
        HeapPop(s.data, s.data.sleeps[k]);
        assert s.data.sleeps[k := s.data.sleeps[k]] == s.data.sleeps;
      case Look => DrainKills(s.data);
      case _ =>
        FadesStep(s, e);
        HeapFades(s.data, m.data);
    }
  }

  predicate Reshapes(e: Event) {
    e.Push? || e.Fire? || e.Skip? || e.Look?
  }

  lemma FadesStep(s: Timer, e: Event)
    requires IdsOk(s.data) && Enabled(s, e) && Apply(s, e).Done? && !Reshapes(e)
    ensures Fades(s.data, Apply(s, e).value.data)
  {
  }

  lemma DrainKills(d: Data)
    requires HeapOk(d)
    ensures HeapOk(d.(sleeps := DrainSleeps(d.sleeps, d.timers), timers := []))
  {
    var m := d.(sleeps := DrainSleeps(d.sleeps, d.timers), timers := []);
    forall k | k in m.sleeps
      ensures !Live(m.sleeps[k])
    {
      if Live(d.sleeps[k]) {
        var x := Entry(d.sleeps[k].deadline, d.sleeps[k].id.value, k);
        var i :| 0 <= i < |d.timers| && d.timers[i] == x;
        assert d.timers[i].key == k;
      }
    }
  }

  lemma TimeKept(s: Timer, e: Event)
    requires HeapOk(s.data) && TimeOk(s.data.sleeps, s.now, s.pc) && Enabled(s, e) && Apply(s, e).Done?
    ensures var m := Apply(s, e).value; TimeOk(m.data.sleeps, m.now, m.pc)
  {
    hide HeapOk;
    TopEntry(s.data);
    if Outside(e) || e.Push? {
      TimeOutside(s, e);
    } else {
      TimeOwn(s, e);
    }
  }

  lemma TopEntry(d: Data)
    requires HeapOk(d)
    ensures d.timers != [] ==> EntryOf(d.sleeps, d.timers[0])
  {
  }

  lemma TimeOutside(s: Timer, e: Event)
    requires TimeOk(s.data.sleeps, s.now, s.pc) && Enabled(s, e) && Apply(s, e).Done? && (Outside(e) || e.Push?)
    ensures var m := Apply(s, e).value; TimeOk(m.data.sleeps, m.now, m.pc)
  {
    hide Insert;
  }

  lemma TimeOwn(s: Timer, e: Event)
    requires TimeOk(s.data.sleeps, s.now, s.pc) && Enabled(s, e) && Apply(s, e).Done? && !(Outside(e) || e.Push?)
    requires s.data.timers != [] ==> EntryOf(s.data.sleeps, s.data.timers[0])
    ensures var m := Apply(s, e).value; TimeOk(m.data.sleeps, m.now, m.pc)
  {
  }

  lemma FireCollects(s: Timer)
    requires WakesOk(s.data.sleeps, s.collected) && Enabled(s, Fire) && s.data.timers[0].key in s.data.sleeps
    ensures WakesOk(FireStep(s).data.sleeps, FireStep(s).collected)
  {
    var m := FireStep(s);
    forall k | k in m.data.sleeps && m.data.sleeps[k].waiting && !m.data.sleeps[k].cancelled
      ensures if m.data.sleeps[k].fired then m.data.sleeps[k].woken || Collects(m.collected, k) else m.data.sleeps[k].waiter
    {
      if Collects(s.collected, k) {
        var i :| 0 <= i < |s.collected| && s.collected[i].key == k;
        assert m.collected[i].key == k;
      } else if k == s.data.timers[0].key && s.data.sleeps[k].waiter {
        assert m.collected[|s.collected|].key == k;
      }
    }
  }

  lemma WakesKept(s: Timer, e: Event)
    requires WakesOk(s.data.sleeps, s.collected) && Enabled(s, e) && Apply(s, e).Done?
    ensures var m := Apply(s, e).value; WakesOk(m.data.sleeps, m.collected)
  {
    if e.Fire? {
      FireCollects(s);
    } else if e.RunWakers? {
      assert forall k | k in s.data.sleeps && Collects(s.collected, k) :: WakeSleeps(s.data.sleeps, s.collected)[k].woken;
    }
  }

  /** The first entry can follow those collected, and the rest of the heap can follow it. */
  lemma CollectFront(collected: seq<Entry>, timers: seq<Entry>)
    requires timers != [] && Sorted(collected) && Sorted(timers)
    requires forall i, j | 0 <= i < |collected| && 0 <= j < |timers| :: Before(collected[i], timers[j])
    ensures Sorted(collected + [timers[0]]) && Sorted(timers[1..])
    ensures forall i, j | 0 <= i < |collected| && 0 <= j < |timers[1..]| :: Before(collected[i], timers[1..][j])
    ensures forall i, j | 0 <= i <= |collected| && 0 <= j < |timers[1..]| :: Before((collected + [timers[0]])[i], timers[1..][j])
  {
    hide Before;
    assert forall j | 0 <= j < |timers[1..]| :: timers[1..][j] == timers[j + 1];
  }

  lemma HeapSorted(d: Data)
    requires HeapOk(d)
    ensures Sorted(d.timers)
  {
    hide Sorted;
  }

  lemma CollectedPop(s: Timer, e: Event)
    requires HeapOk(s.data) && CollectedOk(s.data.timers, s.collected, s.pc) && Enabled(s, e) && Apply(s, e).Done?
    requires e.Fire? || e.Skip?
    ensures var m := Apply(s, e).value; CollectedOk(m.data.timers, m.collected, m.pc)
  {
    hide HeapOk;
    hide Sorted;
    hide Before;
    HeapSorted(s.data);
    CollectFront(s.collected, s.data.timers);
  }

  lemma CollectedRest(s: Timer, e: Event)
    requires CollectedOk(s.data.timers, s.collected, s.pc) && Enabled(s, e) && Apply(s, e).Done?
    requires !e.Fire? && !e.Skip?
    ensures var m := Apply(s, e).value; CollectedOk(m.data.timers, m.collected, m.pc)
  {
    hide Insert;
    hide Before;
  }

  lemma CollectedKept(s: Timer, e: Event)
    requires HeapOk(s.data) && CollectedOk(s.data.timers, s.collected, s.pc) && Enabled(s, e) && Apply(s, e).Done?
    ensures var m := Apply(s, e).value; CollectedOk(m.data.timers, m.collected, m.pc)
  {
    hide HeapOk;
    hide CollectedOk;
    hide Enabled;
    hide Apply;
    if e.Fire? || e.Skip? {
      CollectedPop(s, e);
    } else {
      CollectedRest(s, e);
    }
  }

  /** Entries that could not fire before cannot fire now, and the heap has no new ones. */
  lemma CoveredStays(d: Data, m: Data, wait: Option<Wait>)
    requires Covered(d, wait) && m.timers == d.timers && d.sleeps.Keys <= m.sleeps.Keys
    requires forall k | k in d.sleeps && d.sleeps[k].cancelled :: m.sleeps[k].cancelled
    requires forall i | 0 <= i < |d.timers| :: d.timers[i].key in d.sleeps
    ensures Covered(m, wait)
  {
  }

  /** A step of the other threads or of the clock, except a registration. */
  predicate Outside(e: Event) {
    e.Tick? || e.Make? || e.PollSleep? || e.TakeId? || e.DropSleep? || e.SetShutdown? || e.NotifyDriver?
  }

  lemma OutsideData(s: Timer, e: Event)
    requires Enabled(s, e) && Apply(s, e).Done? && Outside(e)
    ensures var m := Apply(s, e).value;
            && m.data.timers == s.data.timers && s.data.sleeps.Keys <= m.data.sleeps.Keys && m.pc == s.pc
            && (forall k | k in s.data.sleeps && s.data.sleeps[k].cancelled :: m.data.sleeps[k].cancelled)
            && (Told(s) ==> Told(m)) && (m.data.shutdown ==> s.data.shutdown || Told(m))
  {
  }

  lemma WaitOutside(s: Timer, e: Event)
    requires HeapOk(s.data) && WaitOk(s) && Enabled(s, e) && Apply(s, e).Done? && Outside(e)
    ensures WaitOk(Apply(s, e).value)
  {
    assert forall i | 0 <= i < |s.data.timers| :: EntryOf(s.data.sleeps, s.data.timers[i]);
    var m := Apply(s, e).value;
    hide HeapOk;
    hide Apply;
    hide Covered;
    OutsideData(s, e);
    if HasWait(s.pc) && !Told(m) {
      CoveredStays(s.data, m.data, s.pc.wait);
    }
  }

  /** The steps of the first section and of its end. */
  lemma WaitSection(s: Timer, e: Event)
    requires Sorted(s.data.timers) && WaitOk(s) && Enabled(s, e) && Apply(s, e).Done?
    requires e.Look? || e.Fire? || e.EndFiring? || e.Skip? || e.ChooseWait?
    ensures WaitOk(Apply(s, e).value)
  {
    var m := Apply(s, e).value;
    if e.ChooseWait? {
      ChosenWait(s);
    } else if e.EndFiring? {
      assert forall i | 0 < i < |s.data.timers| :: Before(s.data.timers[0], s.data.timers[i]);
    } else if e.Skip? {
      assert forall i | 0 <= i < |m.data.timers| :: m.data.timers[i] == s.data.timers[i + 1];
    }
  }

  lemma WaitRest(s: Timer, e: Event)
    requires WaitOk(s) && Enabled(s, e) && Apply(s, e).Done?
    requires forall i | 0 <= i < |s.data.timers| :: s.data.timers[i].key in s.data.sleeps
    requires !Outside(e) && !(e.Look? || e.Fire? || e.EndFiring? || e.Skip? || e.ChooseWait?)
    ensures WaitOk(Apply(s, e).value)
  {
    if e.RunWakers? && !Told(s) {
      CoveredStays(s.data, Apply(s, e).value.data, s.pc.wait);
    }
  }

  lemma WaitKept(s: Timer, e: Event)
    requires HeapOk(s.data) && WaitOk(s) && Enabled(s, e) && Apply(s, e).Done?
    ensures WaitOk(Apply(s, e).value)
  {
    assert forall i | 0 <= i < |s.data.timers| :: EntryOf(s.data.sleeps, s.data.timers[i]);
    hide Apply;
    hide Enabled;
    hide WaitOk;
    if Outside(e) {
      WaitOutside(s, e);
    } else if e.Look? || e.Fire? || e.EndFiring? || e.Skip? || e.ChooseWait? {
      WaitSection(s, e);
    } else {
      WaitRest(s, e);
    }
  }

  lemma ChosenWait(s: Timer)
    requires Sorted(s.data.timers) && WaitOk(s) && Enabled(s, ChooseWait)
    ensures Covered(s.data, Apply(s, ChooseWait).value.pc.wait)
  {
    assert forall i | 0 < i < |s.data.timers| :: Before(s.data.timers[0], s.data.timers[i]);
  }

  /** A future keeps its deadline, its identifier and its registration. */
  lemma EntryStays(s: Timer, e: Event, x: Entry)
    requires EntryOf(s.data.sleeps, x) && Enabled(s, e) && Apply(s, e).Done?
    ensures EntryOf(Apply(s, e).value.data.sleeps, x)
  {
    hide Insert;
  }

  lemma WaitFollows(s: Timer, e: Event)
    requires Enabled(s, e) && Apply(s, e).Done? && !e.ChooseWait?
    ensures var m := Apply(s, e).value;
            HasWait(m.pc) && m.pc.wait.Some? ==> HasWait(s.pc) && m.pc.wait == s.pc.wait
  {
  }

  lemma ChosenKept(s: Timer, e: Event)
    requires HeapOk(s.data) && WaitOk(s) && ChosenOk(s.data.sleeps, s.pc) && Enabled(s, e) && Apply(s, e).Done?
    ensures ChosenOk(Apply(s, e).value.data.sleeps, Apply(s, e).value.pc)
  {
    hide EntryOf;
    if e.ChooseWait? {
      TopEntry(s.data);
    } else {
      hide Apply;
      hide Enabled;
      WaitFollows(s, e);
      if HasWait(s.pc) && s.pc.wait.Some? && EntryOf(s.data.sleeps, s.pc.wait.value.chosen) {
        EntryStays(s, e, s.pc.wait.value.chosen);
      }
    }
  }

  lemma EndKept(s: Timer, e: Event)
    requires EndOk(s.data, s.pc) && Enabled(s, e) && Apply(s, e).Done?
    ensures EndOk(Apply(s, e).value.data, Apply(s, e).value.pc)
  {
  }

  lemma GateKept(s: Timer, e: Event)
    requires GateOk(s.gate, PositionOf(s.pc), s.native.pause) && Enabled(s, e) && Apply(s, e).Done?
    ensures var m := Apply(s, e).value; GateOk(m.gate, PositionOf(m.pc), m.native.pause)
  {
  }

  /** No step aborts but the one that would hand out the last identifier, and each keeps the invariant. */
  lemma Kept(s: Timer, e: Event)
    requires Inv(s) && Enabled(s, e)
    ensures Apply(s, e).Done? <==> HasId(s, e)
    ensures Apply(s, e).Done? ==> Inv(Apply(s, e).value)
  {
    hide Apply;
    hide Enabled;
    hide IdsOk;
    hide HeapOk;
    hide TimeOk;
    hide WakesOk;
    hide CollectedOk;
    hide WaitOk;
    hide ChosenOk;
    hide EndOk;
    hide GateOk;
    NeverAborts(s, e);
    if Apply(s, e).Done? {
      IdsKept(s, e);
      HeapKept(s, e);
      TimeKept(s, e);
      WakesKept(s, e);
      CollectedKept(s, e);
      WaitKept(s, e);
      ChosenKept(s, e);
      EndKept(s, e);
      GateKept(s, e);
    }
  }

  ghost predicate Reaches(s: Timer, run: seq<Event>, m: Timer)
    decreases |run|
  {
    if run == [] then m == s
    else Enabled(s, run[0]) && Apply(s, run[0]).Done? && Reaches(Apply(s, run[0]).value, run[1..], m)
  }

  lemma {:induction false} Runs(s: Timer, run: seq<Event>, m: Timer)
    requires Inv(s) && Reaches(s, run, m)
    ensures Inv(m)
    decreases |run|
  {
    hide Inv;
    hide Enabled;
    hide Apply;
    if run != [] {
      Kept(s, run[0]);
      Runs(Apply(s, run[0]).value, run[1..], m);
    }
  }

  lemma {:induction false} Snoc(s: Timer, run: seq<Event>, m: Timer, e: Event)
    requires Reaches(s, run, m) && Enabled(m, e) && Apply(m, e).Done?
    ensures Reaches(s, run + [e], Apply(m, e).value)
    decreases |run|
  {
    hide Enabled;
    hide Apply;
    if run == [] {
      assert run + [e] == [e];
      assert Reaches(Apply(m, e).value, [e][1..], Apply(m, e).value);
    } else {
      assert (run + [e])[1..] == run[1..] + [e];
      Snoc(Apply(s, run[0]).value, run[1..], m, e);
    }
  }

  // ----- What the invariant says ----------------------------------------------------------------------------

  /** The driver is parked and no wake is on its way. */
  predicate Asleep(s: Timer) {
    s.pc.Parking? && s.gate.phase == PhaseOf(ModeOf(s.pc.wait))
  }

  /** When the native wait that began at `parked` times out. */
  function WaitEnd(wait: Wait, parked: nat): nat {
    parked + wait.duration
  }

  /**
    Never early, and late by no more than the pass itself took.  A fired future's deadline has come;
    and while the driver is asleep and every registration has been announced, its wait ends no later
    after the deadline of any future that can still fire than it parked after it looked at the heap.
    An indefinite pause means that there is no such future, and either way no shutdown is pending.
   */
  ghost predicate Punctual(s: Timer) {
    && (forall k | k in s.data.sleeps && s.data.sleeps[k].fired :: s.data.sleeps[k].deadline <= s.now)
    && (Asleep(s) && s.owing == {} ==>
          && !s.data.shutdown
          && forall k | k in s.data.sleeps && Live(s.data.sleeps[k]) ::
               && s.pc.wait.Some? && s.pc.wait.value.looked <= s.pc.parked <= s.now
               && WaitEnd(s.pc.wait.value, s.pc.parked) <= s.data.sleeps[k].deadline + (s.pc.parked - s.pc.wait.value.looked))
  }

  lemma InvPunctual(s: Timer)
    requires Inv(s)
    ensures Punctual(s) && s.native.pause <= 1
  {
    hide CollectedOk;
    hide WakesOk;
    hide EndOk;
    if Asleep(s) && s.owing == {} {
      forall k | k in s.data.sleeps && Live(s.data.sleeps[k])
        ensures s.pc.wait.Some? && s.pc.wait.value.looked + s.pc.wait.value.duration <= s.data.sleeps[k].deadline
      {
        var e := Entry(s.data.sleeps[k].deadline, s.data.sleeps[k].id.value, k);
        var i :| 0 <= i < |s.data.timers| && s.data.timers[i] == e;
        assert !s.data.sleeps[s.data.timers[i].key].cancelled;
      }
    }
  }

  lemma AlwaysPunctual(run: seq<Event>, s: Timer)
    requires Reaches(Init(), run, s)
    ensures Punctual(s) && s.native.pause <= 1
  {
    hide Inv;
    hide Punctual;
    hide Reaches;
    InitInv();
    Runs(Init(), run, s);
    InvPunctual(s);
  }

  /**
    How late the wait is, exactly.  It ends after the deadline of the future it was chosen for by the
    time from the look at the heap to the native call, so it is late if and only if that took any; and
    while the driver is asleep and nothing is owed, no future that can still fire is due before that one.
   */
  lemma LateExactly(run: seq<Event>, s: Timer)
    requires Reaches(Init(), run, s) && s.pc.Parking? && s.pc.wait.Some?
    ensures var w := s.pc.wait.value;
            && w.chosen.key in s.data.sleeps && s.data.sleeps[w.chosen.key].deadline == w.chosen.deadline
            && w.looked <= s.pc.parked
            && WaitEnd(w, s.pc.parked) == w.chosen.deadline + (s.pc.parked - w.looked)
            && (w.chosen.deadline < WaitEnd(w, s.pc.parked) <==> w.looked < s.pc.parked)
    ensures Asleep(s) && s.owing == {} ==>
              forall k | k in s.data.sleeps && Live(s.data.sleeps[k]) ::
                s.pc.wait.value.chosen.deadline <= s.data.sleeps[k].deadline
  {
    hide Reaches;
    hide HeapOk;
    hide WaitOk;
    AlwaysPunctual(run, s);
    InitInv();
    Runs(Init(), run, s);
  }

  /** A future whose task waits for it and that has fired has had its task woken once the pass is over. */
  lemma NobodyForgotten(s: Timer, k: Key)
    requires Inv(s) && k in s.data.sleeps && s.data.sleeps[k].waiting && s.data.sleeps[k].fired
    requires !s.data.sleeps[k].cancelled && !Locked(s.pc) && !s.pc.Waking?
    ensures s.data.sleeps[k].woken
  {
    hide HeapOk;
    assert !Collects(s.collected, k);
  }

  /** Outside shutdown an entry leaves the heap only by firing, unless its future was cancelled and stays as it is. */
  lemma LeavesByFiring(s: Timer, e: Event, x: Entry)
    requires HeapOk(s.data) && Enabled(s, e) && Apply(s, e).Done? && !s.data.shutdown
    requires x in s.data.timers && x !in Apply(s, e).value.data.timers && x.key in s.data.sleeps
    ensures s.data.sleeps[x.key].cancelled || (e.Fire? && Apply(s, e).value.data.sleeps[x.key].fired)
    ensures s.data.sleeps[x.key].cancelled ==> Apply(s, e).value.data.sleeps == s.data.sleeps
  {
    if e.Push? {
      InsertMembers(s.data.timers, Entry(s.data.sleeps[e.k].deadline, s.data.sleeps[e.k].id.value, e.k));
    } else if e.Fire? || e.Skip? {
      assert s.data.timers == [s.data.timers[0]] + s.data.timers[1..];
    }
  }

  /** The waiters of a pass are woken in the order of their deadlines, and of their identifiers among equals. */
  lemma WakesInOrder(s: Timer, i: nat, j: nat)
    requires Inv(s) && i < j < |s.collected|
    ensures var a, b := s.collected[i], s.collected[j];
            a.deadline < b.deadline || (a.deadline == b.deadline && a.id < b.id)
  {
    BeforeIsChronological(s.collected[i], s.collected[j]);
  }

  // ----- The end of the driver ------------------------------------------------------------------------------

  predicate Over(pc: Pc) {
    pc.Ending? || pc.Finished? || pc.Retired?
  }

  /** After the end only a future's own poll or drop changes whether it could still fire: nothing fires it. */
  lemma AfterTheEnd(s: Timer, e: Event, k: Key)
    requires Inv(s) && Enabled(s, e) && Apply(s, e).Done? && Over(s.pc) && k in s.data.sleeps
    requires e != PollSleep(k) && !(e.DropSleep? && e.k == k)
    ensures var m := Apply(s, e).value; Over(m.pc) && k in m.data.sleeps && (Live(m.data.sleeps[k]) <==> Live(s.data.sleeps[k]))
    ensures s.gate.phase in {Terminal, Destroyed} ==> Apply(s, e).value.native == s.native
  {
    hide HeapOk;
    hide WakesOk;
    hide CollectedOk;
  }

  /**
    A registered future is left behind: shutdown is requested after the pass has looked at the heap
    and before it looks at the flag again, so the driver ends without cancelling it.
   */
  lemma LeftBehind() returns (run: seq<Event>, s: Timer)
    ensures Reaches(Init(), run, s) && s.pc == Finished(false)
    ensures 0 in s.data.sleeps && Live(s.data.sleeps[0]) && s.data.sleeps[0].waiting && !s.data.sleeps[0].woken
  {
    var registered := Registered();
    run, s := registered.0, registered.1;
    hide Reaches;
    var a := Apply(s, Start).value;
    Snoc(Init(), run, s, Start);
    var b := Apply(a, Look).value;
    Snoc(Init(), run + [Start], a, Look);
    var c := Apply(b, EndFiring).value;
    Snoc(Init(), run + [Start] + [Look], b, EndFiring);
    var d := Apply(c, ChooseWait).value;
    Snoc(Init(), run + [Start] + [Look] + [EndFiring], c, ChooseWait);
    var overtaken := Overtaken(run + [Start] + [Look] + [EndFiring] + [ChooseWait], d);
    run, s := overtaken.0, overtaken.1;
  }

  lemma Registered() returns (r: (seq<Event>, Timer))
    ensures Reaches(Init(), r.0, r.1) && r.1.pc == NotStarted && !r.1.data.shutdown && r.1.now == 0
    ensures r.1.data.timers == [Entry(5, 1, 0)] && r.1.data.sleeps == map[0 := Sleep(5, Some(1), true, false, false, false, true, true, false)]
    ensures r.1.collected == [] && r.1.gate == Init().gate && r.1.native == Init().native && r.1.owing == {0}
  {
    var a := Apply(Init(), Make(0, 5)).value;
    assert Reaches(Init(), [], Init());
    Snoc(Init(), [], Init(), Make(0, 5));
    hide Reaches;
    var b := Apply(a, PollSleep(0)).value;
    Snoc(Init(), [] + [Make(0, 5)], a, PollSleep(0));
    var c := Apply(b, TakeId(0)).value;
    Snoc(Init(), [] + [Make(0, 5)] + [PollSleep(0)], b, TakeId(0));
    var d := Apply(c, Push(0, 0)).value;
    Snoc(Init(), [] + [Make(0, 5)] + [PollSleep(0)] + [TakeId(0)], c, Push(0, 0));
    assert Insert([], Entry(5, 1, 0)) == [Entry(5, 1, 0)];
    r := ([] + [Make(0, 5)] + [PollSleep(0)] + [TakeId(0)] + [Push(0, 0)], d);
  }

  lemma Overtaken(run: seq<Event>, s: Timer) returns (r: (seq<Event>, Timer))
    requires Reaches(Init(), run, s) && s.pc == Waking(Some(Wait(5, 0, Entry(5, 1, 0))), false) && s.collected == []
    requires 0 in s.data.sleeps && Live(s.data.sleeps[0]) && s.data.sleeps[0].waiting && !s.data.sleeps[0].woken
    ensures Reaches(Init(), r.0, r.1) && r.1.pc == Finished(false)
    ensures 0 in r.1.data.sleeps && Live(r.1.data.sleeps[0]) && r.1.data.sleeps[0].waiting && !r.1.data.sleeps[0].woken
  {
    hide Reaches;
    var a := Apply(s, SetShutdown(1)).value;
    Snoc(Init(), run, s, SetShutdown(1));
    var b := Apply(a, RunWakers).value;
    Snoc(Init(), run + [SetShutdown(1)], a, RunWakers);
    var c := Apply(b, CheckShutdown).value;
    Snoc(Init(), run + [SetShutdown(1)] + [RunWakers], b, CheckShutdown);
    var d := Apply(c, MarkTerminal).value;
    Snoc(Init(), run + [SetShutdown(1)] + [RunWakers] + [CheckShutdown], c, MarkTerminal);
    r := (run + [SetShutdown(1)] + [RunWakers] + [CheckShutdown] + [MarkTerminal], d);
  }

  /** One pass over the heap of `Registered`, up to the choice between parking and another pass. */
  lemma Turn(before: seq<Event>, s: Timer) returns (r: (seq<Event>, Timer))
    requires Reaches(Init(), before, s) && s.pc == Looking && !s.data.shutdown && s.now == 0 && s.collected == []
    requires s.data.timers == [Entry(5, 1, 0)] && 0 in s.data.sleeps && !s.data.sleeps[0].cancelled
    ensures Reaches(Init(), r.0, r.1) && r.1 == s.(pc := Deciding(Some(Wait(5, 0, Entry(5, 1, 0)))))
  {
    hide Reaches;
    hide Sorted;
    var run, m := before, s;
    Snoc(Init(), run, m, Look);
    run, m := run + [Look], s.(pc := Firing(0));
    Snoc(Init(), run, m, EndFiring);
    run, m := run + [EndFiring], s.(pc := Skipping(0));
    Snoc(Init(), run, m, ChooseWait);
    run, m := run + [ChooseWait], s.(pc := Waking(Some(Wait(5, 0, Entry(5, 1, 0))), false));
    Snoc(Init(), run, m, RunWakers);
    assert WakeSleeps(s.data.sleeps, []) == s.data.sleeps;
    run, m := run + [RunWakers], s.(pc := Checking(Some(Wait(5, 0, Entry(5, 1, 0))), false));
    Snoc(Init(), run, m, CheckShutdown);
    r := (run + [CheckShutdown], s.(pc := Deciding(Some(Wait(5, 0, Entry(5, 1, 0))))));
  }

  /** The driver has made one pass and forgotten the notification of the registration, and makes another. */
  lemma SecondTurn() returns (r: (seq<Event>, Timer))
    ensures Reaches(Init(), r.0, r.1) && r.1.pc == Deciding(Some(Wait(5, 0, Entry(5, 1, 0))))
    ensures r.1.now == 0 && r.1.gate == Gate(Running, false, true) && r.1.native == Native(0, 0) && r.1.owing == {}
    ensures 0 in r.1.data.sleeps && Live(r.1.data.sleeps[0]) && r.1.data.sleeps[0].deadline == 5
  {
    var first := Registered();
    hide Reaches;
    var run, s := first.0, first.1;
    Snoc(Init(), run, s, NotifyDriver(0));
    run, s := run + [NotifyDriver(0)], Apply(s, NotifyDriver(0)).value;
    Snoc(Init(), run, s, Start);
    run, s := run + [Start], Apply(s, Start).value;
    var once := Turn(run, s);
    run, s := once.0, once.1;
    Snoc(Init(), run, s, ParkOrLoop);
    run, s := run + [ParkOrLoop], Apply(s, ParkOrLoop).value;
    r := Turn(run, s);
  }

  /**
    A timer can be late by any amount: the clock moves between the look at the heap and the native wait,
    and with nothing owed and no wake on its way the driver sleeps past the deadline by as much.
   */
  lemma LateBy(d: nat) returns (run: seq<Event>, s: Timer)
    ensures Reaches(Init(), run, s) && Asleep(s) && s.owing == {} && s.native == Native(0, 0)
    ensures 0 in s.data.sleeps && Live(s.data.sleeps[0])
    ensures s.pc.wait.Some? && WaitEnd(s.pc.wait.value, s.pc.parked) == s.data.sleeps[0].deadline + d
  {
    var ready := SecondTurn();
    hide Reaches;
    run, s := ready.0, ready.1;
    Snoc(Init(), run, s, Tick(d));
    run, s := run + [Tick(d)], Apply(s, Tick(d)).value;
    Snoc(Init(), run, s, ParkOrLoop);
    run, s := run + [ParkOrLoop], Apply(s, ParkOrLoop).value;
  }

  // ----- From the start ---------------------------------------------------------------------------------------

  lemma Reached(run: seq<Event>, s: Timer)
    requires Reaches(Init(), run, s)
    ensures Inv(s)
  {
    hide Inv;
    hide Reaches;
    InitInv();
    Runs(Init(), run, s);
  }

  /** The one step that can abort is handing out an identifier when the last one has been handed out. */
  lemma NeverAbortsAlways(run: seq<Event>, s: Timer, e: Event)
    requires Reaches(Init(), run, s) && Enabled(s, e)
    ensures Apply(s, e).Done? <==> (e.TakeId? ==> s.data.nextId < U64_MAX)
  {
    hide Inv;
    hide Reaches;
    hide Enabled;
    hide Apply;
    Reached(run, s);
    Kept(s, e);
  }

  /** Nobody sleeps through the firing of his timer, and waiters are woken in the order of their deadlines. */
  lemma WakesAlways(run: seq<Event>, s: Timer, k: Key, i: nat, j: nat)
    requires Reaches(Init(), run, s) && k in s.data.sleeps && i < j
    ensures s.data.sleeps[k].waiting && s.data.sleeps[k].fired && !s.data.sleeps[k].cancelled && !Locked(s.pc) && !s.pc.Waking? ==>
              s.data.sleeps[k].woken
    ensures j < |s.collected| ==>
              var a, b := s.collected[i], s.collected[j];
              a.deadline < b.deadline || (a.deadline == b.deadline && a.id < b.id)
  {
    hide Reaches;
    hide HeapOk;
    Reached(run, s);
    if j < |s.collected| {
      WakesInOrder(s, i, j);
    }
    if s.data.sleeps[k].waiting && s.data.sleeps[k].fired && !s.data.sleeps[k].cancelled && !Locked(s.pc) && !s.pc.Waking? {
      NobodyForgotten(s, k);
    }
  }

  // ----- When a poll is ready -----------------------------------------------------------------------------------

  /** The drop of a future is final: it is cancelled, and nobody will be woken for it. */
  predicate DropsOk(sleeps: map<Key, Sleep>) {
    forall k | k in sleeps && sleeps[k].dropped :: sleeps[k].cancelled && !sleeps[k].waiter && !sleeps[k].waiting
  }

  lemma DropsOutside(s: Timer, e: Event)
    requires DropsOk(s.data.sleeps) && Enabled(s, e) && Apply(s, e).Done? && (Outside(e) || e.Push?)
    ensures DropsOk(Apply(s, e).value.data.sleeps)
  {
    hide Insert;
  }

  lemma DropsOwn(s: Timer, e: Event)
    requires DropsOk(s.data.sleeps) && Enabled(s, e) && Apply(s, e).Done? && !Outside(e) && !e.Push?
    ensures DropsOk(Apply(s, e).value.data.sleeps)
  {
  }

  lemma {:induction false} DropsRuns(s: Timer, run: seq<Event>, m: Timer)
    requires DropsOk(s.data.sleeps) && Reaches(s, run, m)
    ensures DropsOk(m.data.sleeps)
    decreases |run|
  {
    hide DropsOk;
    hide Enabled;
    hide Apply;
    if run != [] {
      if Outside(run[0]) || run[0].Push? {
        DropsOutside(s, run[0]);
      } else {
        DropsOwn(s, run[0]);
      }
      DropsRuns(Apply(s, run[0]).value, run[1..], m);
    }
  }

  /**
    A drop always cancels: over every run a dropped future is cancelled with no waiter left, and the drop
    of a registered one owes the driver a notification.
   */
  lemma DropsAlways(run: seq<Event>, s: Timer, t: Thread, k: Key)
    requires Reaches(Init(), run, s)
    ensures DropsOk(s.data.sleeps)
    ensures Enabled(s, DropSleep(t, k)) ==>
              var m := Apply(s, DropSleep(t, k)).value;
              m.data.sleeps[k].dropped && m.data.sleeps[k].cancelled && (s.data.sleeps[k].registered ==> t in m.owing)
  {
    hide Reaches;
    DropsRuns(Init(), run, s);
  }

  lemma FiredDue(s: Timer, k: Key)
    requires Inv(s) && k in s.data.sleeps && s.data.sleeps[k].fired
    ensures s.data.sleeps[k].deadline <= s.now
  {
    hide HeapOk;
    hide WaitOk;
  }

  /**
    A poll is ready exactly when the deadline has come, whatever the driver has done: a ready one leaves
    the future fired, a pending one leaves its waiter registered, and neither touches anything else.
   */
  lemma PollsExactly(run: seq<Event>, s: Timer, k: Key)
    requires Reaches(Init(), run, s) && Enabled(s, PollSleep(k))
    ensures k in s.data.sleeps && Apply(s, PollSleep(k)).Done? && k in Apply(s, PollSleep(k)).value.data.sleeps
    ensures var m := Apply(s, PollSleep(k)).value; var x, y := s.data.sleeps[k], m.data.sleeps[k];
            && (!y.waiting <==> x.deadline <= s.now)
            && (!y.waiting ==> y == x.(waiting := false, fired := true))
            && (y.waiting ==> y == x.(waiting := true, waiter := true, woken := false) && !y.fired)
            && m == s.(data := s.data.(sleeps := s.data.sleeps[k := y]))
  {
    hide Inv;
    hide Reaches;
    Reached(run, s);
    if s.data.sleeps[k].fired {
      FiredDue(s, k);
    }
  }

  lemma ClockStep(s: Timer, e: Event, k: Key)
    requires k in s.data.sleeps && Enabled(s, e) && Apply(s, e).Done?
    ensures var m := Apply(s, e).value;
            s.now <= m.now && k in m.data.sleeps && m.data.sleeps[k].deadline == s.data.sleeps[k].deadline
  {
    hide Insert;
  }

  lemma {:induction false} ClockRuns(s: Timer, more: seq<Event>, m: Timer, k: Key)
    requires k in s.data.sleeps && Reaches(s, more, m)
    ensures s.now <= m.now && k in m.data.sleeps && m.data.sleeps[k].deadline == s.data.sleeps[k].deadline
    decreases |more|
  {
    hide Enabled;
    hide Apply;
    if more != [] {
      ClockStep(s, more[0], k);
      ClockRuns(Apply(s, more[0]).value, more[1..], m, k);
    }
  }

  /** From the deadline on every poll is ready, also when shutdown has cancelled the future and the driver is over. */
  lemma DueForever(run: seq<Event>, s: Timer, k: Key, more: seq<Event>, m: Timer)
    requires Reaches(Init(), run, s) && k in s.data.sleeps && s.data.sleeps[k].deadline <= s.now
    requires Reaches(s, more, m) && Enabled(m, PollSleep(k))
    ensures Apply(m, PollSleep(k)).Done? && k in Apply(m, PollSleep(k)).value.data.sleeps
    ensures var y := Apply(m, PollSleep(k)).value.data.sleeps[k]; !y.waiting && y.fired
  {
    hide Reaches;
    hide Enabled;
    hide Apply;
    ClockRuns(s, more, m, k);
    Joined(Init(), run, s, more, m);
    PollsExactly(run + more, m, k);
  }

  lemma {:induction false} Joined(s: Timer, run: seq<Event>, m: Timer, more: seq<Event>, n: Timer)
    requires Reaches(s, run, m) && Reaches(m, more, n)
    ensures Reaches(s, run + more, n)
    decreases |run|
  {
    hide Enabled;
    hide Apply;
    if run == [] {
      assert run + more == more;
    } else {
      assert (run + more)[1..] == run[1..] + more;
      Joined(Apply(s, run[0]).value, run[1..], m, more, n);
    }
  }

  // ----- What shutdown leaves behind ----------------------------------------------------------------------------

  /** The driver has looked at the heap and not yet looked at the flag again. */
  predicate InWindow(pc: Pc) {
    pc.Waking? || pc.Checking?
  }

  /** Nobody polls or drops the future `k` itself. */
  predicate Untouched(run: seq<Event>, k: Key) {
    forall i | 0 <= i < |run| :: run[i] != PollSleep(k) && !(run[i].DropSleep? && run[i].k == k)
  }

  /**
    Where a future stands that was live when shutdown was requested.  In the window the driver goes
    straight to its end and the future stays as it is; otherwise the next pass drains the heap.
   */
  ghost predicate Fate(s: Timer, k: Key, window: bool) {
    && s.data.shutdown && k in s.data.sleeps
    && if window then Live(s.data.sleeps[k]) && (InWindow(s.pc) || Over(s.pc)) && !Drained(s.pc)
       else
         || s.data.sleeps[k].cancelled
         || (Live(s.data.sleeps[k]) && !Locked(s.pc) && !InWindow(s.pc) && !Over(s.pc))
  }

  lemma FateAtRequest(s: Timer, t: Thread, k: Key)
    requires EndOk(s.data, s.pc) && !s.data.shutdown && Enabled(s, SetShutdown(t))
    requires k in s.data.sleeps && Live(s.data.sleeps[k])
    ensures Fate(Apply(s, SetShutdown(t)).value, k, InWindow(s.pc))
  {
  }

  /** A live future is in the heap, so the pass that finds the request cancels it. */
  lemma DrainCancels(d: Data, k: Key)
    requires HeapOk(d) && k in d.sleeps && Live(d.sleeps[k])
    ensures DrainSleeps(d.sleeps, d.timers)[k].cancelled
  {
    var x := Entry(d.sleeps[k].deadline, d.sleeps[k].id.value, k);
    var i :| 0 <= i < |d.timers| && d.timers[i] == x;
    assert d.timers[i].key == k;
  }

  lemma FateKept(s: Timer, e: Event, k: Key, window: bool)
    requires Inv(s) && Fate(s, k, window) && Enabled(s, e) && Apply(s, e).Done?
    requires e != PollSleep(k) && !(e.DropSleep? && e.k == k)
    ensures Fate(Apply(s, e).value, k, window)
  {
    hide WakesOk;
    hide CollectedOk;
    hide WaitOk;
    hide IdsOk;
    hide HeapOk;
    if e.Look? && Live(s.data.sleeps[k]) {
      DrainCancels(s.data, k);
    }
  }

  lemma {:induction false} FateRuns(s: Timer, run: seq<Event>, m: Timer, k: Key, window: bool)
    requires Inv(s) && Fate(s, k, window) && Reaches(s, run, m) && Untouched(run, k)
    ensures Fate(m, k, window)
    decreases |run|
  {
    hide Inv;
    hide Enabled;
    hide Apply;
    hide Fate;
    if run != [] {
      Kept(s, run[0]);
      FateKept(s, run[0], k, window);
      assert forall i | 0 <= i < |run[1..]| :: run[1..][i] == run[i + 1];
      FateRuns(Apply(s, run[0]).value, run[1..], m, k, window);
    }
  }

  /**
    What the driver leaves behind is decided when shutdown is requested.  A future that could fire
    then, and that nobody polls or drops afterwards, can still fire when the driver is over exactly if
    the request came between the driver's two looks; and otherwise it has been cancelled.
   */
  lemma ShutdownLeaves(run: seq<Event>, s: Timer, t: Thread, k: Key, more: seq<Event>, m: Timer)
    requires Reaches(Init(), run, s) && !s.data.shutdown && Enabled(s, SetShutdown(t))
    requires k in s.data.sleeps && Live(s.data.sleeps[k])
    requires Reaches(Apply(s, SetShutdown(t)).value, more, m) && Over(m.pc) && Untouched(more, k)
    ensures k in m.data.sleeps && (Live(m.data.sleeps[k]) <==> InWindow(s.pc))
    ensures !InWindow(s.pc) ==> m.data.sleeps[k].cancelled
  {
    Reached(run, s);
    Requested(s, t, k);
    hide Inv;
    hide Enabled;
    hide Reaches;
    Kept(s, SetShutdown(t));
    FateRuns(Apply(s, SetShutdown(t)).value, more, m, k, InWindow(s.pc));
  }

  lemma Requested(s: Timer, t: Thread, k: Key)
    requires Inv(s) && !s.data.shutdown && Enabled(s, SetShutdown(t))
    requires k in s.data.sleeps && Live(s.data.sleeps[k])
    ensures Fate(Apply(s, SetShutdown(t)).value, k, InWindow(s.pc))
  {
    hide DataOk;
    hide WaitOk;
    FateAtRequest(s, t, k);
  }
}
