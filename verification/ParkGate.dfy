/**
  The park/notify gate that the io_uring driver and the timer driver share.

  A driver task announces under the gate's lock how it is going to block; `notify` under the same
  lock turns that announcement into a native wake, or leaves a mark that the driver finds before it
  blocks.  A native `submit` leaves one token in `pause` and a deadline wake one in `deadline`: a
  pause returns by consuming one of the former, a timed wait by consuming one of the latter or by
  timing out whenever it likes, so a deadline token may be left over.
 */
module ParkGate {

  datatype Park = Building | Running | Paused | DeadlineWait | WakePending | Terminal | Destroyed

  /** `raw` tells whether the gate holds the native descriptor. */
  datatype Gate = Gate(phase: Park, notified: bool, raw: bool)

  datatype Native = Native(pause: nat, deadline: nat)

  /** How a driver gives up its thread: a yield, a timed wait, or an indefinite pause. */
  datatype Mode = Yielding | Timed | Untimed

  /** Where the driver task is, as far as the gate is concerned. */
  datatype Position = Unborn | Awake | Blocking(m: Mode) | Back | Ended | Gone

  datatype Outcome<+T> = Done(value: T) | Abort(reason: string)

  /** `notify`, with the native call it makes. */
  function Notify(g: Gate, n: Native): Outcome<(Gate, Native)> {
    var h := g.(notified := true);
    if g.phase == Paused || g.phase == DeadlineWait then
      if !g.raw then Abort("descriptor missing")
      else if g.phase == DeadlineWait then Done((h.(phase := WakePending), n.(deadline := n.deadline + 1)))
      else Done((h.(phase := WakePending), n.(pause := n.pause + 1)))
    else Done((h, n))
  }

  function PhaseOf(m: Mode): Park {
    match m
    case Yielding => Running
    case Timed => DeadlineWait
    case Untimed => Paused
  }

  /** The section in which the driver decides whether it may block. */
  function TryPark(g: Gate, m: Mode): (r: (Gate, bool)) {
    if g.notified then (g.(notified := false, phase := Running), false) else (g.(phase := PhaseOf(m)), true)
  }

  /** Whether a native call in this mode can return now. */
  predicate CanReturn(m: Mode, n: Native, woken: bool) {
    match m
    case Yielding => !woken
    case Timed => woken ==> n.deadline > 0
    case Untimed => woken && n.pause > 0
  }

  function Return(m: Mode, n: Native, woken: bool): Native
    requires CanReturn(m, n, woken)
  {
    if !woken then n else if m == Untimed then n.(pause := n.pause - 1) else n.(deadline := n.deadline - 1)
  }

  /** `retire`: the completion callback destroys the descriptor. */
  function Retire(g: Gate): Outcome<Gate> {
    if g.phase != Terminal then Abort("early driver completion")
    else if !g.raw then Abort("missing driver descriptor")
    else Done(g.(phase := Destroyed, raw := false))
  }

  /** Phase, mark, descriptor and pause tokens follow from where the driver task is. */
  ghost predicate GateOk(g: Gate, at: Position, tokens: nat) {
    && (g.raw <==> at != Unborn && at != Gone)
    && match at
       case Unborn => g.phase == Building && tokens == 0
       case Awake => g.phase == Running && tokens == 0
       case Blocking(m) =>
         (g.phase == PhaseOf(m) && tokens == 0 && (m != Yielding ==> !g.notified))
         || (m != Yielding && g.phase == WakePending && tokens == if m == Untimed then 1 else 0)
       case Back => g.phase in {Running, DeadlineWait, WakePending} && tokens == 0
       case Ended => g.phase == Terminal && tokens == 0
       case Gone => g.phase == Destroyed && tokens == 0
  }

  /** A notification never aborts; it marks the gate, and it wakes a driver that is blocked without a token. */
  lemma NotifyOk(g: Gate, at: Position, n: Native)
    requires GateOk(g, at, n.pause)
    ensures Notify(g, n).Done?
    ensures var (h, k) := Notify(g, n).value;
            && GateOk(h, at, k.pause) && h.notified
            && (at == Blocking(Untimed) ==> k.pause == 1)
            && (at == Blocking(Timed) && g.phase == DeadlineWait ==> k.deadline == n.deadline + 1)
            && (at.Ended? || at.Gone? ==> k == n)
  {
  }

  /** A driver blocks only when nothing was announced since it last cleared the mark. */
  lemma TryParkOk(g: Gate, m: Mode, n: Native)
    requires GateOk(g, Awake, n.pause)
    ensures var (h, blocked) := TryPark(g, m);
            && blocked == !g.notified
            && GateOk(h, if blocked then Blocking(m) else Awake, n.pause)
            && !h.notified
  {
  }

  /** A native wait that can return keeps the gate consistent, and a pause uses up its token. */
  lemma ReturnOk(g: Gate, m: Mode, n: Native, woken: bool)
    requires GateOk(g, Blocking(m), n.pause) && CanReturn(m, n, woken)
    ensures GateOk(g, Back, Return(m, n, woken).pause)
  {
  }

  lemma RetireOk(g: Gate, tokens: nat)
    requires GateOk(g, Ended, tokens)
    ensures Retire(g).Done? && GateOk(Retire(g).value, Gone, tokens)
  {
  }

  /** The gate as an object; `native` stands for what the native layer has been asked to do. */
  class DriverGate {
    var phase: Park
    var notified: bool
    var raw: bool
    var native: Native

    ghost function Value(): Gate
      reads this
    {
      Gate(phase, notified, raw)
    }

    /** The descriptor exists and the driver task runs. */
    constructor ()
      ensures GateOk(Value(), Awake, native.pause) && !notified
    {
      phase, notified, raw, native := Running, false, true, Native(0, 0);
    }

    /** `notify`: never aborts, and wakes a driver that is blocked without a token. */
    method NotifyDriver(ghost at: Position)
      requires GateOk(Value(), at, native.pause)
      modifies this
      ensures GateOk(Value(), at, native.pause) && notified
      ensures at == Blocking(Untimed) ==> native.pause == 1
      ensures at.Ended? || at.Gone? ==> native == old(native)
    {
      NotifyOk(Value(), at, native);
      notified := true;
      if phase == Paused || phase == DeadlineWait {
        if !raw {
          assert false;
        }
        native := if phase == DeadlineWait then native.(deadline := native.deadline + 1) else native.(pause := native.pause + 1);
        phase := WakePending;
      }
    }

    /** The section before a native wait: the driver may block only if nothing was announced. */
    method TryBlock(m: Mode) returns (blocked: bool)
      requires GateOk(Value(), Awake, native.pause)
      modifies this`phase, this`notified
      ensures blocked == !old(notified) && !notified
      ensures GateOk(Value(), if blocked then Blocking(m) else Awake, native.pause)
    {
      TryParkOk(Value(), m, native);
      blocked := !notified;
      if notified {
        notified, phase := false, Running;
      } else {
        phase := PhaseOf(m);
      }
    }

    /** A native wait returns, and the driver marks itself running again; a notification in between stays marked. */
    method Resume(m: Mode, woken: bool)
      requires GateOk(Value(), Blocking(m), native.pause) && CanReturn(m, native, woken)
      modifies this`native, this`phase
      ensures GateOk(Value(), Awake, native.pause)
      ensures m == Untimed ==> native.pause == old(native.pause) - 1
      ensures m == Timed ==> native.deadline == old(native.deadline) - if woken then 1 else 0
    {
      ReturnOk(Value(), m, native, woken);
      native := Return(m, native, woken);
      phase := Running;
    }

    /** `retire`: the phase and the descriptor are as the completion callback needs them. */
    method RetireDriver()
      requires GateOk(Value(), Ended, native.pause)
      modifies this`phase, this`raw
      ensures GateOk(Value(), Gone, native.pause)
    {
      RetireOk(Value(), native.pause);
      if phase != Terminal || !raw {
        assert false;
      }
      raw, phase := false, Destroyed;
    }
  }
}
