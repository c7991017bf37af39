/**
  Originals and the cancellations aimed at them.

  An original keeps its box until its own terminal CQE and, when a cancellation was requested, also
  the cancellation's CQE have been dispatched, in either order.  The raw maps and the owned maps of
  the driver follow the same rules and both project onto one `Pairs` value.
 */
module Pairs {

  type Addr = nat

  datatype Original = Original(terminal: bool, queued: bool, seen: bool)

  /** `commands` are targets waiting for an SQ slot; `cancels` maps a cancellation box to its target. */
  datatype Pairs = Pairs(originals: map<Addr, Original>, commands: seq<Addr>, cancels: map<Addr, Addr>)

  datatype Event =
    | Idle
    | Add(p: Addr)
    | Queue(p: Addr)
    | Stage(c: Addr)
    | FinishOriginal(p: Addr)
    | FinishCancel(c: Addr)

  ghost predicate Enabled(s: Pairs, e: Event) {
    match e
    case Idle => true
    case Add(p) => p !in s.originals && p !in s.cancels
    case Queue(p) => p in s.originals && !s.originals[p].terminal && !s.originals[p].queued
    case Stage(c) => s.commands != [] && c !in s.originals && c !in s.cancels
    case FinishOriginal(p) => p in s.originals && !s.originals[p].terminal
    case FinishCancel(c) => c in s.cancels && s.cancels[c] in s.originals
  }

  /** Whether a terminal original has to stay until its cancellation retires. */
  predicate Retained(o: Original) {
    o.queued && !o.seen
  }

  function Finish(originals: map<Addr, Original>, p: Addr): map<Addr, Original>
    requires p in originals
  {
    if Retained(originals[p]) then originals[p := originals[p].(terminal := true)] else originals - {p}
  }

  function See(originals: map<Addr, Original>, t: Addr): map<Addr, Original>
    requires t in originals
  {
    if originals[t].terminal then originals - {t} else originals[t := originals[t].(seen := true)]
  }

  ghost function Apply(s: Pairs, e: Event): Pairs
    requires Enabled(s, e)
  {
    match e
    case Idle => s
    case Add(p) => s.(originals := s.originals[p := Original(false, false, false)])
    case Queue(p) =>
      s.(originals := s.originals[p := s.originals[p].(queued := true)], commands := s.commands + [p])
    case Stage(c) => s.(commands := s.commands[1..], cancels := s.cancels[c := s.commands[0]])
    case FinishOriginal(p) => s.(originals := Finish(s.originals, p))
    case FinishCancel(c) => s.(originals := See(s.originals, s.cancels[c]), cancels := s.cancels - {c})
  }

  ghost predicate Awaiting(s: Pairs, t: Addr) {
    t in s.originals && Retained(s.originals[t])
  }

  /**
    Every command and every cancellation box aims at an original that is still boxed and waits for it,
    and an original has seen a cancellation only if one was queued.
   */
  ghost predicate TargetsOk(s: Pairs) {
    && (forall p | p in s.originals && s.originals[p].seen :: s.originals[p].queued)
    && (forall c | c in s.cancels :: c !in s.originals && Awaiting(s, s.cancels[c]))
    && (forall i | 0 <= i < |s.commands| :: Awaiting(s, s.commands[i]))
  }

  /** No original is targeted twice. */
  ghost predicate OnceOk(s: Pairs) {
    && (forall c, d | c in s.cancels && d in s.cancels && c != d :: s.cancels[c] != s.cancels[d])
    && (forall i, j | 0 <= i < j < |s.commands| :: s.commands[i] != s.commands[j])
    && (forall i, c | 0 <= i < |s.commands| && c in s.cancels :: s.commands[i] != s.cancels[c])
  }

  ghost predicate Covered(s: Pairs, p: Addr) {
    (exists i :: 0 <= i < |s.commands| && s.commands[i] == p) || (exists c :: c in s.cancels && s.cancels[c] == p)
  }

  /**
    An original waits for a cancellation only while one is queued, staged or in the kernel, and a
    terminal original stays only to wait.
   */
  ghost predicate CoveredOk(s: Pairs) {
    && (forall p | p in s.originals && s.originals[p].terminal :: Retained(s.originals[p]))
    && (forall p | Awaiting(s, p) :: Covered(s, p))
  }

  ghost predicate Inv(s: Pairs) {
    TargetsOk(s) && OnceOk(s) && CoveredOk(s)
  }

  lemma InitInv()
    ensures Inv(Pairs(map[], [], map[]))
  {
  }

  lemma TargetsKept(s: Pairs, e: Event)
    requires TargetsOk(s) && OnceOk(s) && Enabled(s, e)
    ensures TargetsOk(Apply(s, e)) && OnceOk(Apply(s, e))
  {
    var t := Apply(s, e);
    if e.Stage? {
      assert forall i | 0 <= i < |t.commands| :: t.commands[i] == s.commands[i + 1];
    } else {
      assert forall i | 0 <= i < |s.commands| :: t.commands[i] == s.commands[i];
    }
  }

  lemma CoveredKept(s: Pairs, e: Event)
    requires Inv(s) && Enabled(s, e)
    ensures CoveredOk(Apply(s, e))
  {
    var t := Apply(s, e);
    forall p | Awaiting(t, p)
      ensures Covered(t, p)
    {
      if e.Queue? && p == e.p {
        assert t.commands[|s.commands|] == p;
      } else {
        assert Awaiting(s, p);
        if i :| 0 <= i < |s.commands| && s.commands[i] == p {
          if e.Stage? {
            if i == 0 {
              assert t.cancels[e.c] == p;
            } else {
              assert t.commands[i - 1] == p;
            }
          } else {
            assert t.commands[i] == p;
          }
        } else {
          var c :| c in s.cancels && s.cancels[c] == p;
          assert c in t.cancels && t.cancels[c] == p;
        }
      }
    }
  }

  lemma Kept(s: Pairs, e: Event)
    requires Inv(s) && Enabled(s, e)
    ensures Inv(Apply(s, e))
  {
    TargetsKept(s, e);
    CoveredKept(s, e);
  }

  /** With no command and no cancellation box left, no terminal original is left either. */
  lemma NothingRetained(s: Pairs)
    requires Inv(s) && s.commands == [] && s.cancels == map[]
    ensures forall p | p in s.originals :: !s.originals[p].terminal
  {
    assert forall p | p in s.originals :: !Covered(s, p);
  }
}
