/** The shutdown of the runtime as the owner thread runs it, with the loop that aborts every task. */
module RuntimeOwner {
  import opened Prelude
  import opened Runtime
  import T = Task

  ghost predicate Ran<V(!new)>(r: Runtime<V>, run: seq<Event<V>>, m: Runtime<V>) {
    Reaches(r, run, m) && Inv(m)
  }

  lemma {:induction false} Snoc<V(!new)>(r: Runtime<V>, run: seq<Event<V>>, m: Runtime<V>, e: Event<V>)
    requires Reaches(r, run, m) && Enabled(m, e) && Apply(m, e).Ok?
    ensures Reaches(r, run + [e], Apply(m, e).value)
    decreases |run|
  {
    hide Enabled;
    hide Apply;
    if run == [] {
      assert run + [e] == [e];
      assert Reaches(Apply(m, e).value, [e][1..], Apply(m, e).value);
    } else {
      assert (run + [e])[1..] == run[1..] + [e];
      Snoc(Apply(r, run[0]).value, run[1..], m, e);
    }
  }

  lemma Then<V(!new)>(r: Runtime<V>, run: seq<Event<V>>, m: Runtime<V>, e: Event<V>)
    requires Ran(r, run, m) && Enabled(m, e)
    ensures Apply(m, e).Ok? && Ran(r, run + [e], Apply(m, e).value)
  {
    hide Inv;
    hide Reaches;
    hide Enabled;
    hide Apply;
    Kept(m, e);
    Snoc(r, run, m, e);
  }

  lemma WaitingAsked<V(!new)>(r: Runtime<V>, run: seq<Event<V>>, m: Runtime<V>)
    requires Ran(r, run, m) && m.shut == Waiting
    ensures AllAsked(m)
  {
    hide Reaches;
    hide RegistryOk;
  }

  class RuntimeCore<V(!new)> {
    var state: Runtime<V>

    constructor ()
      ensures state == Init() && Inv(state)
    {
      state := Init();
      new;
      InitInv<V>();
    }

    /**
      The first half of `shutdown_inner`: the lifecycle closes and the registry is read under one lock,
      and then every task in it is aborted, each once and without the lock.  No task is added.  After a
      shutdown that failed on the way down it can be called again.
     */
    method CloseAndAbort() returns (ghost run: seq<Event<V>>)
      requires Inv(state) && state.shut in {NotCalled, Failed}
      modifies this
      ensures Ran(old(state), run, state) && state.shut == Waiting && state.lifecycle == Closing
      ensures AllAsked(state)
      ensures |run| == |old(state.registry)| + 2
      ensures forall i | 1 <= i < |run| - 1 :: run[i].AbortOne? && run[i].id in old(state.registry)
      ensures forall i, j | 1 <= i < j < |run| - 1 && run[i].AbortOne? && run[j].AbortOne? :: run[i].id != run[j].id
    {
      hide Inv;
      hide Ran;
      ghost var start := state;
      Begin(start);
      NotClosed(start);
      Then(start, [], start, BeginShutdown);
      var todo := state.registry;
      state := state.(lifecycle := Closing, shut := Aborting(todo));
      run := [] + [BeginShutdown];
      while todo != {}
        invariant Ran(start, run, state) && state.shut == Aborting(todo) && state.lifecycle == Closing
        invariant |run| >= 1 && |run| + |todo| == |start.registry| + 1 && todo <= start.registry
        invariant forall i | 1 <= i < |run| :: run[i].AbortOne? && run[i].id in start.registry - todo
        invariant forall i, j | 1 <= i < j < |run| && run[i].AbortOne? && run[j].AbortOne? :: run[i].id != run[j].id
        decreases |todo|
      {
        var id :| id in todo;
        Then(start, run, state, AbortOne(id));
        AbortKeeps(state, id);
        state := Apply(state, AbortOne(id)).value;
        run := run + [AbortOne(id)];
        todo := todo - {id};
      }
      Then(start, run, state, AbortsDone);
      state := state.(shut := Waiting);
      run := run + [AbortsDone];
      WaitingAsked(start, run, state);
    }
  }

  lemma NotClosed<V>(r: Runtime<V>)
    requires Inv(r) && r.shut in {NotCalled, Failed}
    ensures r.lifecycle != Closed
  {
    hide RegistryOk;
  }

  lemma Begin<V(!new)>(r: Runtime<V>)
    requires Inv(r)
    ensures Ran(r, [], r)
  {
    hide Inv;
  }

  lemma AbortKeeps<V>(r: Runtime<V>, id: Id)
    requires Enabled(r, AbortOne(id)) && Apply(r, AbortOne(id)).Ok?
    ensures var m := Apply(r, AbortOne(id)).value; m.shut == Aborting(r.shut.todo - {id}) && m.lifecycle == r.lifecycle
  {
    hide T.Apply;
  }
}
