/** Short runs from the initial state that end badly after a stop from another thread: stale links that
    are followed, a wakeup that is swallowed, and a stop that never returns. */
module StopRaces {
  import opened Options
  import opened RunQueues
  import opened RunQueueInvariant
  import opened RunQueueTheorems
  import opened Tables

  ghost predicate Reaches(s: State, s': State) {
    exists steps: seq<Step> :: Possible(s, steps) && After(s, steps) == s'
  }

  lemma {:induction false} AppendStep(s: State, steps: seq<Step>, st: Step)
    requires Possible(s, steps) && Enabled(After(s, steps), st.th, st.a)
    ensures Possible(s, steps + [st]) && After(s, steps + [st]) == Exec(After(s, steps), st.th, st.a)
    decreases |steps|
  {
    if steps == [] {
      assert steps + [st] == [st] && [st][1..] == [];
    } else {
      AppendStep(Exec(s, steps[0].th, steps[0].a), steps[1..], st);
      assert (steps + [st])[1..] == steps[1..] + [st];
    }
  }

  lemma {:induction false} Extend(s: State, m: State, th: nat, a: Action)
    requires Reaches(s, m) && Enabled(m, th, a)
    ensures Reaches(s, Exec(m, th, a))
  {
    var steps: seq<Step> :| Possible(s, steps) && After(s, steps) == m;
    AppendStep(s, steps, Step(th, a));
  }

  ghost function InitialState(): State {
    State((th: nat) => Thread(Out, NoRun, NoStop, {}), (t: nat) => Tasklet(t, None, true, false),
          (q: nat) => RunQueue([], None, Started, 0, false, false, 0), false)
  }

  ghost predicate IdleBut(s: State, used: set<nat>) {
    forall th: nat :: th !in used ==> s.threads(th) == Thread(Out, NoRun, NoStop, {})
  }

  lemma {:induction false} Locked() returns (s: State)
    ensures Reaches(InitialState(), s) && !s.torn && s.tasklets == InitialState().tasklets
    ensures s.queues == InitialState().queues
    ensures s.threads == Put(InitialState().threads, 1, Thread(Out, NoRun, NoStop, {0}))
  {
    var s0 := InitialState();
    assert Possible(s0, []) && After(s0, []) == s0;
    s := Exec(s0, 1, Lock(0));
    Extend(s0, s0, 1, Lock(0));
    assert {} + {0} == {0};
  }

  // Thread 1, owning the mutex of tasklet 0, schedules it on queue 0.
  lemma {:induction false} Queued() returns (s: State)
    ensures Reaches(InitialState(), s) && !s.torn && IdleBut(s, {1})
    ensures s.threads(1) == Thread(Out, NoRun, NoStop, {0})
    ensures s.tasklets(0) == Tasklet(0, Some(0), true, false)
    ensures s.queues(0) == RunQueue([0], None, Started, 0, false, false, 0)
  {
    var s0 := InitialState();
    var s1 := Locked();
    assert !Closing(s1, 0);
    var s2 := Exec(s1, 1, StartRun(0));
    Extend(s0, s1, 1, StartRun(0));
    var s3 := Exec(s2, 1, ReadRunq(0));
    Extend(s0, s2, 1, ReadRunq(0));
    s := Exec(s3, 1, RunSection);
    Extend(s0, s3, 1, RunSection);
  }

  // Thread 0 takes tasklet 0, and blocks in mutex_transfer because thread 1 owns the tasklet's mutex;
  // thread 1 stops the tasklet.
  lemma {:induction false} StoppedInTransfer() returns (s: State)
    ensures Reaches(InitialState(), s) && !s.torn && IdleBut(s, {0, 1})
    ensures s.threads(0) == Thread(Vetoed(0, 0), NoRun, NoStop, {})
    ensures s.threads(1) == Thread(Out, NoRun, StopAwait(0, 0, false, false), {0})
    ensures s.tasklets(0) == Tasklet(0, Some(0), true, false)
    ensures s.queues(0) == RunQueue([], Some(0), Stopped, 0, true, false, 0)
  {
    var s0 := InitialState();
    var s4 := Queued();
    assert forall o: nat :: !Services(s4.threads(o).loop, 0);
    var s5 := Exec(s4, 0, EnterLoop(0, false));
    Extend(s0, s4, 0, EnterLoop(0, false));
    var s6 := Exec(s5, 1, StartStop(0, false));
    Extend(s0, s5, 1, StartStop(0, false));
    var s7 := Exec(s6, 1, ReadStop);
    Extend(s0, s6, 1, ReadStop);
    s := Exec(s7, 1, StopSection);
    Extend(s0, s7, 1, StopSection);
    forall th: nat | th !in {0, 1} ensures s.threads(th) == Thread(Out, NoRun, NoStop, {}) {
      assert s4.threads(th) == Thread(Out, NoRun, NoStop, {});
      assert s7.threads(th) == s4.threads(th);
    }
  }

  // The worker gives the tasklet up, and the stop returns; the tasklet is stray.
  lemma {:induction false} StoppedAndStray() returns (s: State)
    ensures Reaches(InitialState(), s) && !s.torn
    ensures s.threads(1) == Thread(Out, NoRun, NoStop, {0}) && s.tasklets(0) == Tasklet(0, Some(0), true, true)
    ensures s.queues(0).ring == [] && s.queues(0).current == None
    ensures forall th: nat :: th != 1 ==> s.threads(th).run.NoRun? && s.threads(th).stop.NoStop?
  {
    var s0 := InitialState();
    var s8 := StoppedInTransfer();
    var s9 := Exec(s8, 0, VetoReturn);
    Extend(s0, s8, 0, VetoReturn);
    s := Exec(s9, 1, StopWake);
    Extend(s0, s9, 1, StopWake);
    forall th: nat | th != 1 ensures s.threads(th).run.NoRun? && s.threads(th).stop.NoStop? {
      assert s.threads(th) == s9.threads(th);
      if th != 0 { assert s8.threads(th) == Thread(Out, NoRun, NoStop, {}); }
    }
  }

  // The ordinary way to shut down, tasklet_fini after the stop, then follows stale links.
  lemma {:induction false} StaleLinksFollowed() returns (s: State)
    ensures Reaches(InitialState(), s) && s.torn
  {
    var s0 := InitialState();
    var s10 := StoppedAndStray();
    var s11 := Exec(s10, 1, StartStop(0, true));
    Extend(s0, s10, 1, StartStop(0, true));
    var s12 := Exec(s11, 1, ReadStop);
    Extend(s0, s11, 1, ReadStop);
    s := Exec(s12, 1, StopSection);
    Extend(s0, s12, 1, StopSection);
  }

  // The stop returns, but a later tasklet_run(0) returns without anything being scheduled, and by
  // StrayForever nothing ever will be.
  lemma {:induction false} SwallowedWakeup() returns (s: State, s': State)
    ensures Reaches(InitialState(), s) && Core(s) && Enabled(s, 1, RunSection) && s' == Exec(s, 1, RunSection)
    ensures s.threads(1).run == RunLock(0, 0, false) && s'.threads(1).run.NoRun?
    ensures s.tasklets(0).live && s.tasklets(0).stray && !Pending(s', 0)
  {
    var s0 := InitialState();
    var s10 := StoppedAndStray();
    assert !Closing(s10, 0);
    var s11 := Exec(s10, 1, StartRun(0));
    Extend(s0, s10, 1, StartRun(0));
    s := Exec(s11, 1, ReadRunq(0));
    Extend(s0, s11, 1, ReadRunq(0));
    s' := Exec(s, 1, RunSection);
    InitialCore(s);
  }

  // A tasklet_run(0) by a third thread between the veto and the worker's look at `current_state`
  // leaves the stopper and the worker waiting for each other; by JammedForever they stay so.
  lemma {:induction false} StopNeverReturns() returns (s: State)
    ensures Reaches(InitialState(), s) && Core(s) && Jammed(s, 1, 0, 0, 0)
  {
    var s11 := RunInTransfer();
    s := Exec(s11, 0, VetoReturn);
    Extend(InitialState(), s11, 0, VetoReturn);
    InitialCore(s);
  }

  lemma {:induction false} RunInTransfer() returns (s: State)
    ensures Reaches(InitialState(), s) && !s.torn
    ensures s.threads(0) == Thread(Vetoed(0, 0), NoRun, NoStop, {})
    ensures s.threads(1) == Thread(Out, NoRun, StopAwait(0, 0, false, false), {0})
    ensures s.tasklets(0) == Tasklet(0, Some(0), true, false)
    ensures s.queues(0) == RunQueue([], Some(0), Requeue, 0, true, false, 0)
  {
    var s0 := InitialState();
    var s8 := StoppedInTransfer();
    assert !Closing(s8, 0);
    var s9 := Exec(s8, 2, StartRun(0));
    Extend(s0, s8, 2, StartRun(0));
    var s10 := Exec(s9, 2, ReadRunq(0));
    Extend(s0, s9, 2, ReadRunq(0));
    s := Exec(s10, 2, RunSection);
    Extend(s0, s10, 2, RunSection);
  }

  lemma {:induction false} InitialCore(s: State)
    requires Reaches(InitialState(), s) && !s.torn
    ensures Core(s)
  {
    InitCore(InitialState());
    var steps: seq<Step> :| Possible(InitialState(), steps) && After(InitialState(), steps) == s;
    ReachableCore(InitialState(), steps);
  }
}
