/** The waker of `block_on`: one native submission for each poll epoch of the root future. */
module Parker {

  datatype Pc = Attached | Polling | Pausing | Closing | Detached

  /** `woken` is history: a wake reached the live gate since the current epoch began. */
  datatype Parker = Parker(pc: Pc, live: bool, wakeSubmitted: bool, tokens: nat, woken: bool)

  datatype Event = BeginPoll | PollPending | PollDone | Resume | Wake | Close

  function New(): Parker {
    Parker(Attached, true, true, 0, false)
  }

  predicate Enabled(p: Parker, e: Event) {
    match e
    case BeginPoll => p.pc == Attached
    case PollPending => p.pc == Polling
    case PollDone => p.pc == Polling
    // `pause` returns by consuming a submission
    case Resume => p.pc == Pausing && p.tokens > 0
    case Wake => true
    case Close => p.pc == Closing
  }

  /** `wake_by_ref`. */
  function WakeStep(p: Parker): Parker {
    if !p.live then p
    else if p.wakeSubmitted then p.(woken := true)
    else p.(wakeSubmitted := true, tokens := p.tokens + 1, woken := true)
  }

  function Apply(p: Parker, e: Event): Parker
    requires Enabled(p, e)
  {
    match e
    case BeginPoll => p.(pc := Polling, wakeSubmitted := false, woken := false)
    case PollPending => p.(pc := Pausing)
    case PollDone => p.(pc := Closing)
    case Resume => p.(pc := Attached, tokens := p.tokens - 1)
    case Wake => WakeStep(p)
    case Close => p.(pc := Detached, live := false)
  }

  /** Between polls the recorded wake is the one that ended the pause; within an epoch it is one submission. */
  ghost predicate Inv(p: Parker) {
    && (p.live <==> p.pc != Detached)
    && (p.pc == Attached ==> p.wakeSubmitted && p.tokens == 0)
    && (p.pc in {Polling, Pausing, Closing} ==> p.tokens == (if p.wakeSubmitted then 1 else 0))
    && (p.pc in {Polling, Pausing} ==> (p.woken <==> p.wakeSubmitted))
  }

  ghost predicate Reaches(p: Parker, run: seq<Event>, q: Parker)
    decreases |run|
  {
    if run == [] then q == p else Enabled(p, run[0]) && Reaches(Apply(p, run[0]), run[1..], q)
  }

  lemma {:induction false} Runs(p: Parker, run: seq<Event>, q: Parker)
    requires Inv(p) && Reaches(p, run, q)
    ensures Inv(q)
    decreases |run|
  {
    if run != [] {
      Runs(Apply(p, run[0]), run[1..], q);
    }
  }

  /**
    The root future is never left asleep: in every run, a paused thread can resume exactly if a wake
    came since the epoch began, however many wakes came, and a wake after the close does nothing.
   */
  lemma RootNeverOversleeps(run: seq<Event>, p: Parker)
    requires Reaches(New(), run, p)
    ensures p.pc == Pausing ==> (Enabled(p, Resume) <==> p.woken)
    ensures p.tokens <= 1 || p.pc == Detached
    ensures p.pc == Detached ==> WakeStep(p) == p
  {
    Runs(New(), run, p);
  }

  /** The gate as the object that the wakers of the root future share. */
  class ParkerGate {
    var live: bool
    var wakeSubmitted: bool
    var submissions: nat

    constructor ()
      ensures live && wakeSubmitted && submissions == 0
    {
      live, wakeSubmitted, submissions := true, true, 0;
    }

    /**
      The waker side of one turn of `block_on`: the epoch begins, and then `n` wakes come in.  The
      thread is submitted once if any came while the gate was live, however many they were.
     */
    method Epoch(n: nat)
      modifies this`wakeSubmitted, this`submissions
      ensures submissions == old(submissions) + (if n > 0 && live then 1 else 0)
      ensures wakeSubmitted == (n > 0 && live)
    {
      wakeSubmitted := false;
      Storm(n);
    }

    /** A storm of `n` wakes submits the thread once per epoch, and never after the close. */
    method Storm(n: nat)
      modifies this`wakeSubmitted, this`submissions
      ensures submissions == old(submissions) + (if n > 0 && live && !old(wakeSubmitted) then 1 else 0)
      ensures wakeSubmitted == (old(wakeSubmitted) || (n > 0 && live))
    {
      var i := 0;
      while i < n
        invariant i <= n
        invariant submissions == old(submissions) + (if i > 0 && live && !old(wakeSubmitted) then 1 else 0)
        invariant wakeSubmitted == (old(wakeSubmitted) || (i > 0 && live))
      {
        if live && !wakeSubmitted {
          wakeSubmitted := true;
          submissions := submissions + 1;
        }
        i := i + 1;
      }
    }
  }
}
