/** The timer driver as an object: registration, and the loops of one pass over the heap. */
module TimerDriver {
  import opened Prelude
  import opened ParkGate
  import opened Timer

  /** A run of steps from `s` to `m`, and the invariant at its end. */
  ghost predicate Ran(s: Timer, run: seq<Event>, m: Timer) {
    Reaches(s, run, m) && Inv(m)
  }

  lemma Begin(s: Timer)
    requires Inv(s)
    ensures Ran(s, [], s)
  {
    hide Inv;
  }

  lemma Then(s: Timer, run: seq<Event>, m: Timer, e: Event)
    requires Ran(s, run, m) && Enabled(m, e) && HasId(m, e)
    ensures Apply(m, e).Done? && Ran(s, run + [e], Apply(m, e).value)
  {
    hide Inv;
    hide Reaches;
    hide Enabled;
    hide Apply;
    Kept(m, e);
    Snoc(s, run, m, e);
  }

  lemma TopKnown(s: Timer, run: seq<Event>, m: Timer)
    requires Ran(s, run, m)
    ensures m.data.timers != [] ==> EntryOf(m.data.sleeps, m.data.timers[0])
  {
    hide Reaches;
  }

  lemma ThenLook(s: Timer, run: seq<Event>, m: Timer)
    requires Ran(s, run, m) && m.pc == Looking && !m.data.shutdown
    ensures Ran(s, run + [Look], m.(pc := Firing(m.now)))
  {
    hide Ran;
    Then(s, run, m, Look);
  }

  lemma ThenEndFiring(s: Timer, run: seq<Event>, m: Timer)
    requires Ran(s, run, m) && m.pc.Firing? && (m.data.timers != [] ==> m.pc.now < m.data.timers[0].deadline)
    ensures Ran(s, run + [EndFiring], m.(pc := Skipping(m.pc.now)))
  {
    hide Ran;
    Then(s, run, m, EndFiring);
  }

  lemma ThenChooseWait(s: Timer, run: seq<Event>, m: Timer)
    requires Ran(s, run, m) && m.pc.Skipping? && !Stale(m.data)
    ensures var wait := if m.data.timers == [] then None else Some(WaitUntil(m.data.timers[0], m.pc.now));
            Ran(s, run + [ChooseWait], m.(pc := Waking(wait, false)))
  {
    hide Ran;
    Then(s, run, m, ChooseWait);
  }

  class TimerDriver {
    /** The heap with its shutdown flag and the states it retains, under the data lock. */
    var data: Data
    var gate: Gate
    var native: Native
    var now: nat
    /** The position of the run loop and the waiters its pass has taken. */
    var pc: Pc
    var collected: seq<Entry>
    ghost var owing: set<Thread>

    ghost function T(): Timer
      reads this
    {
      Timer(data, now, gate, native, pc, collected, owing)
    }

    constructor ()
      ensures T() == Init()
    {
      data, gate, native := Data([], map[], 1, false), Gate(Building, false, false), Native(0, 0);
      now, pc, collected, owing := 0, NotStarted, [], {};
    }

    /** `register`, up to the notification that `t` owes afterwards; shutdown cancels the future instead. */
    method Register(t: Thread, k: Key) returns (queued: bool, ghost run: seq<Event>)
      requires Inv(T()) && k in data.sleeps && !data.sleeps[k].dropped && data.sleeps[k].id.None?
      requires !data.sleeps[k].registered && data.sleeps[k].waiting && !Locked(pc) && data.nextId < U64_MAX
      modifies this`data, this`owing
      ensures Ran(old(T()), run, T())
      ensures queued == !old(data.shutdown) && data.nextId == old(data.nextId) + 1
      ensures k in data.sleeps
      ensures queued ==> data.timers == Insert(old(data.timers), Entry(old(data.sleeps[k].deadline), old(data.nextId), k))
      ensures !queued ==> data.timers == old(data.timers) && data.sleeps[k].cancelled && !data.sleeps[k].waiter
    {
      hide Inv;
      hide Ran;
      Begin(T());
      Then(old(T()), [], old(T()), TakeId(k));
      var x := data.sleeps[k].(id := Some(data.nextId));
      data := data.(nextId := data.nextId + 1, sleeps := data.sleeps[k := x]);
      ghost var named := T();
      Then(old(T()), [] + [TakeId(k)], named, Push(t, k));
      queued := !data.shutdown;
      if data.shutdown {
        data := data.(sleeps := data.sleeps[k := x.(registered := true, cancelled := true, waiter := false)]);
      } else {
        data := data.(timers := Insert(data.timers, Entry(x.deadline, x.id.value, k)),
                      sleeps := data.sleeps[k := x.(registered := true)]);
        owing := owing + {t};
      }
      assert T() == Apply(named, Push(t, k)).value;
      run := [] + [TakeId(k)] + [Push(t, k)];
    }

    /** The first inner loop of `run`: every entry that is due leaves the heap. */
    method FireExpired() returns (ghost run: seq<Event>)
      requires Inv(T()) && pc.Firing?
      modifies this`data, this`collected
      ensures Ran(old(T()), run, T())
      ensures data.timers != [] ==> pc.now < data.timers[0].deadline
      ensures forall i | 0 <= i < |run| :: run[i].Fire?
      ensures |run| <= |old(data.timers)| && data.timers == old(data.timers)[|run|..] && old(collected) <= collected
    {
      hide Inv;
      hide Ran;
      Begin(T());
      run := [];
      while data.timers != [] && data.timers[0].deadline <= pc.now
        invariant Ran(old(T()), run, T())
        invariant forall i | 0 <= i < |run| :: run[i].Fire?
        invariant |run| <= |old(data.timers)| && data.timers == old(data.timers)[|run|..] && old(collected) <= collected
        decreases |data.timers|
      {
        ghost var before := T();
        TopKnown(old(T()), run, before);
        Then(old(T()), run, before, Fire);
        var e := data.timers[0];
        data := data.(timers := data.timers[1..]);
        var x := data.sleeps[e.key];
        if !x.cancelled {
          data := data.(sleeps := data.sleeps[e.key := x.(fired := true, waiter := false)]);
          if x.waiter {
            collected := collected + [e];
          }
        }
        assert before.data.sleeps[e.key := before.data.sleeps[e.key]] == before.data.sleeps;
        assert T() == FireStep(before);
        run := run + [Fire];
      }
    }

    /** The second inner loop: cancelled entries at the front leave the heap; those behind stay for later. */
    method SkipCancelled() returns (ghost run: seq<Event>)
      requires Inv(T()) && pc.Skipping?
      modifies this`data
      ensures Ran(old(T()), run, T()) && !Stale(data)
      ensures |run| <= |old(data.timers)| && data == old(data).(timers := old(data.timers)[|run|..])
      ensures forall i | 0 <= i < |run| && old(data.timers)[i].key in data.sleeps :: data.sleeps[old(data.timers)[i].key].cancelled
    {
      hide Inv;
      hide Ran;
      Begin(T());
      run := [];
      while Stale(data)
        invariant Ran(old(T()), run, T())
        invariant |run| <= |old(data.timers)| && data == old(data).(timers := old(data.timers)[|run|..])
        invariant forall i | 0 <= i < |run| && old(data.timers)[i].key in data.sleeps :: data.sleeps[old(data.timers)[i].key].cancelled
        decreases |data.timers|
      {
        ghost var before := T();
        Then(old(T()), run, before, Skip);
        data := data.(timers := data.timers[1..]);
        run := run + [Skip];
      }
    }

    /**
      The first section of a pass: what is due fires, what is cancelled at the front goes, and the
      wait is the time from now to the deadline of the first entry that remains, which is neither.
     */
    method Service() returns (wait: Option<Wait>, ghost run: seq<Event>)
      requires Inv(T()) && pc == Looking && !data.shutdown
      modifies this`data, this`collected, this`pc
      ensures Ran(old(T()), run, T()) && pc == Waking(wait, false)
      ensures data.timers == [] ==> wait == None
      ensures data.timers != [] ==>
                && now < data.timers[0].deadline && !Stale(data)
                && wait == Some(Wait(data.timers[0].deadline - now, now, data.timers[0]))
    {
      hide Inv;
      hide Ran;
      hide Enabled;
      hide Apply;
      Begin(T());
      ThenLook(old(T()), [], old(T()));
      pc := Firing(now);
      run := [] + [Look];
      ghost var here := T();
      RanInv(old(T()), run, here);
      ghost var more := FireExpired();
      Join(old(T()), run, here, more, T());
      run := run + more;
      ThenEndFiring(old(T()), run, T());
      pc := Skipping(now);
      run := run + [EndFiring];
      here := T();
      RanInv(old(T()), run, here);
      FirstLater(old(T()), run, here);
      more := SkipCancelled();
      Join(old(T()), run, here, more, T());
      run := run + more;
      ThenChooseWait(old(T()), run, T());
      wait := if data.timers == [] then None else Some(WaitUntil(data.timers[0], now));
      pc := Waking(wait, false);
      run := run + [ChooseWait];
    }
  }

  lemma RanInv(s: Timer, run: seq<Event>, m: Timer)
    requires Ran(s, run, m)
    ensures Inv(m)
  {
    hide Inv;
  }

  /** Once the due entries are gone, everything left is due later. */
  lemma FirstLater(s: Timer, run: seq<Event>, m: Timer)
    requires Ran(s, run, m) && m.pc.Skipping?
    ensures forall i | 0 <= i < |m.data.timers| :: m.pc.now < m.data.timers[i].deadline
  {
    hide Reaches;
    hide DataOk;
  }

  lemma Join(s: Timer, run: seq<Event>, m: Timer, more: seq<Event>, n: Timer)
    requires Ran(s, run, m) && Ran(m, more, n)
    ensures Ran(s, run + more, n)
  {
    hide Inv;
    Joined(s, run, m, more, n);
  }
}
