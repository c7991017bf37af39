/** Runs of the ledger, what a step can touch, and the addresses an allocator can still hand out. */
module Traces {
  import opened Prelude
  import opened Ledger

  /** `l'` is reached from `l` by the steps `run`, in this order. */
  ghost predicate Reaches(l: Ledger, run: seq<Action>, l': Ledger)
    decreases |run|
  {
    if run == [] then l' == l
    else Enabled(l, run[0]) && Apply(l, run[0]).Done? && Reaches(Apply(l, run[0]).value, run[1..], l')
  }

  /** A run followed by one more step is a run. */
  lemma {:induction false} Snoc(l: Ledger, run: seq<Action>, m: Ledger, a: Action)
    requires Reaches(l, run, m) && Enabled(m, a) && Apply(m, a).Done?
    ensures Reaches(l, run + [a], Apply(m, a).value)
    decreases |run|
  {
    if run == [] {
      assert run + [a] == [a];
      assert Reaches(Apply(m, a).value, [a][1..], Apply(m, a).value);
    } else {
      assert (run + [a])[1..] == run[1..] + [a];
      Snoc(Apply(l, run[0]).value, run[1..], m, a);
    }
  }

  /** A run followed by a run is a run. */
  lemma {:induction false} Concat(l: Ledger, run: seq<Action>, m: Ledger, more: seq<Action>, n: Ledger)
    requires Reaches(l, run, m) && Reaches(m, more, n)
    ensures Reaches(l, run + more, n)
    decreases |run|
  {
    if run == [] {
      assert run + more == more;
    } else {
      assert (run + more)[1..] == run[1..] + more;
      Concat(Apply(l, run[0]).value, run[1..], m, more, n);
    }
  }

  /** Steps on the state of a submission or on the future that feeds it. */
  predicate TouchesSubs(a: Action) {
    a.DoRegister? || a.DoYield? || a.DoFinishIterator? || a.DoStageOriginal? || a.DoWakeAdmission? || a.DoCloseCursor?
    || a.DoRequestDelivery? || a.DoPollNext? || a.DoPollNextCancel? || a.DoPollDrained? || a.DoQueueCancel?
    || a.DoAccept? || a.DoDispatch? || a.DoAwaitAdmission?
  }

  /** The steps of the stream, of the cancellation handle and of whoever closes delivery. */
  predicate OfHandles(a: Action) {
    a.DoRequestDelivery? || a.DoPollNext? || a.DoPollNextCancel? || a.DoPollDrained?
  }

  lemma SubsUntouched(l: Ledger, a: Action)
    requires Enabled(l, a) && Apply(l, a).Done? && !TouchesSubs(a)
    ensures Apply(l, a).value.subs == l.subs && Apply(l, a).value.cursors == l.cursors
  {
  }

  /** Some run leads from `l` to `m`. */
  ghost predicate Leads(l: Ledger, m: Ledger) {
    exists run :: Reaches(l, run, m)
  }

  lemma LeadsNowhere(l: Ledger)
    ensures Leads(l, l)
  {
    assert Reaches(l, [], l);
  }

  lemma LeadsOn(l: Ledger, m: Ledger, a: Action)
    requires Leads(l, m) && Enabled(m, a) && Apply(m, a).Done?
    ensures Leads(l, Apply(m, a).value)
  {
    hide Enabled;
    hide Apply;
    hide Reaches;
    var run :| Reaches(l, run, m);
    Snoc(l, run, m, a);
  }

  lemma {:induction false} MostIsThere(s: set<Addr>) returns (a: Addr)
    requires s != {}
    ensures a in s && forall b | b in s :: b <= a
    decreases |s|
  {
    var x :| x in s;
    var rest := s - {x};
    assert s == rest + {x};
    if rest == {} {
      a := x;
    } else {
      a := MostIsThere(rest);
      a := if a < x then x else a;
    }
  }

  lemma SomeFresh(l: Ledger) returns (p: Addr)
    ensures Fresh(l, p)
  {
    var s := l.raw.contexts.Keys + l.owned.contexts.Keys + l.owned.cancels.Keys;
    if s == {} {
      p := 1;
    } else {
      p := MostIsThere(s);
      p := p + 1;
    }
  }
}
