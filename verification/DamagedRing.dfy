/** A short run from the initial state, after which a ring is damaged: a tasklet is stopped while its worker
    is in mutex_transfer, and finished when its old neighbours have changed. */
module DamagedRing {
  import opened Options
  import opened RunQueueInvariant
  import opened RunQueues
  import opened RunQueueTheorems
  import opened RunRings
  import opened StopRaces

  // Nothing is linked; what the links hold does not matter.
  ghost function InitialLinks(): Links {
    Links((t: nat) => 0, (t: nat) => 0, (q: nat) => None)
  }

  ghost predicate Arrives(s: State, l: Links) {
    exists steps: seq<Step> ::
      Possible(InitialState(), steps) && After(InitialState(), steps) == s
      && LinksAfter(InitialState(), steps, InitialLinks()) == l
  }

  lemma {:induction false} AppendLinks(s: State, steps: seq<Step>, st: Step, l: Links)
    requires Possible(s, steps) && Enabled(After(s, steps), st.th, st.a)
    ensures Possible(s, steps + [st])
    ensures LinksAfter(s, steps + [st], l) == StepLinks(After(s, steps), st.th, st.a, LinksAfter(s, steps, l))
    decreases |steps|
  {
    AppendStep(s, steps, st);
    if steps == [] {
      assert steps + [st] == [st] && [st][1..] == [];
    } else {
      AppendLinks(Exec(s, steps[0].th, steps[0].a), steps[1..], st, StepLinks(s, steps[0].th, steps[0].a, l));
      assert (steps + [st])[1..] == steps[1..] + [st];
    }
  }

  lemma {:induction false} Go(s: State, l: Links, th: nat, a: Action)
    requires Arrives(s, l) && Enabled(s, th, a)
    ensures Arrives(Exec(s, th, a), StepLinks(s, th, a, l))
  {
    var steps: seq<Step> :|
      Possible(InitialState(), steps) && After(InitialState(), steps) == s
      && LinksAfter(InitialState(), steps, InitialLinks()) == l;
    AppendStep(InitialState(), steps, Step(th, a));
    AppendLinks(InitialState(), steps, Step(th, a), InitialLinks());
  }

  lemma {:induction false} Represented(s: State, l: Links)
    requires Arrives(s, l) && !s.torn
    ensures Core(s) && AllLinked(s, l)
  {
    var steps: seq<Step> :|
      Possible(InitialState(), steps) && After(InitialState(), steps) == s
      && LinksAfter(InitialState(), steps, InitialLinks()) == l;
    InitCore(InitialState());
    InitLinked(InitialState(), InitialLinks());
    ReachableCore(InitialState(), steps);
    RingsRepresented(InitialState(), steps, InitialLinks());
  }

  // Thread 1 owns the mutex of tasklet 0, and nobody is in a call.
  ghost predicate Ready(s: State) {
    && !s.torn && s.threads(1) == Thread(Out, NoRun, NoStop, {0})
    && (forall th: nat :: th != 1 ==> s.threads(th) == Thread(Out, NoRun, NoStop, {}))
    && s.queues(0).(ring := []) == RunQueue([], None, Started, 0, false, false, 0)
  }

  lemma {:induction false} Locked() returns (s: State, l: Links)
    ensures Arrives(s, l) && Ready(s) && s.queues(0).ring == [] && s.tasklets == InitialState().tasklets
  {
    var s0, l0 := InitialState(), InitialLinks();
    assert Possible(s0, []) && After(s0, []) == s0 && LinksAfter(s0, [], l0) == l0;
    s, l := Exec(s0, 1, Lock(0)), StepLinks(s0, 1, Lock(0), l0);
    Go(s0, l0, 1, Lock(0));
    assert {} + {0} == {0};
  }

  // Thread 1 calls tasklet_run(t).
  lemma {:induction false} RunOf(s: State, l: Links, t: nat) returns (s': State, l': Links)
    requires Arrives(s, l) && Ready(s) && s.tasklets(t) == Tasklet(t, None, true, false)
    ensures Arrives(s', l') && Ready(s') && s'.queues(0).ring == s.queues(0).ring + [t]
    ensures s'.tasklets(t) == Tasklet(t, Some(0), true, false)
    ensures forall u: nat :: u != t ==> s'.tasklets(u) == s.tasklets(u)
  {
    assert !Closing(s, t);
    var s1, l1 := Exec(s, 1, StartRun(t)), StepLinks(s, 1, StartRun(t), l);
    Go(s, l, 1, StartRun(t));
    var s2, l2 := Exec(s1, 1, ReadRunq(0)), StepLinks(s1, 1, ReadRunq(0), l1);
    Go(s1, l1, 1, ReadRunq(0));
    s', l' := Exec(s2, 1, RunSection), StepLinks(s2, 1, RunSection, l2);
    Go(s2, l2, 1, RunSection);
  }

  lemma {:induction false} Three() returns (s: State, l: Links)
    ensures Arrives(s, l) && Ready(s) && s.queues(0).ring == [0, 1, 2]
    ensures s.tasklets(0) == Tasklet(0, Some(0), true, false)
  {
    s, l := Locked();
    s, l := RunOf(s, l, 0);
    s, l := RunOf(s, l, 1);
    s, l := RunOf(s, l, 2);
  }

  // Thread 0 takes tasklet 0, whose links go on pointing to tasklets 1 and 2.
  lemma {:induction false} Transferring() returns (s: State, l: Links)
    ensures Arrives(s, l) && !s.torn && s.threads(1) == Thread(Out, NoRun, NoStop, {0})
    ensures s.threads(0) == Thread(Transfer(0, 0), NoRun, NoStop, {})
    ensures forall th: nat :: th > 1 ==> s.threads(th) == Thread(Out, NoRun, NoStop, {})
    ensures s.tasklets(0) == Tasklet(0, Some(0), true, false)
    ensures s.queues(0) == RunQueue([1, 2], Some(0), Started, 0, false, false, 0)
    ensures l.next(0) == 1 && l.prev(0) == 2
  {
    var s1, l1 := Three();
    Represented(s1, l1);
    assert Shows(l1, 0, s1.queues(0).ring);
    assert Edge(l1, [0, 1, 2], 0) && Edge(l1, [0, 1, 2], 2);
    assert forall o: nat :: !Services(s1.threads(o).loop, 0);
    s, l := Exec(s1, 0, EnterLoop(0, false)), StepLinks(s1, 0, EnterLoop(0, false), l1);
    Go(s1, l1, 0, EnterLoop(0, false));
  }

  // Thread 1 stops it.
  lemma {:induction false} StopAwaits() returns (s: State, l: Links)
    ensures Arrives(s, l) && !s.torn && s.threads(0) == Thread(Vetoed(0, 0), NoRun, NoStop, {})
    ensures s.threads(1) == Thread(Out, NoRun, StopAwait(0, 0, false, false), {0})
    ensures forall th: nat :: th > 1 ==> s.threads(th).run.NoRun?
    ensures s.tasklets(0) == Tasklet(0, Some(0), true, false)
    ensures s.queues(0) == RunQueue([1, 2], Some(0), Stopped, 0, true, false, 0)
    ensures l.next(0) == 1 && l.prev(0) == 2
  {
    var s1, l1 := Transferring();
    var s2, l2 := Exec(s1, 1, StartStop(0, false)), StepLinks(s1, 1, StartStop(0, false), l1);
    Go(s1, l1, 1, StartStop(0, false));
    var s3, l3 := Exec(s2, 1, ReadStop), StepLinks(s2, 1, ReadStop, l2);
    Go(s2, l2, 1, ReadStop);
    s, l := Exec(s3, 1, StopSection), StepLinks(s3, 1, StopSection, l3);
    Go(s3, l3, 1, StopSection);
  }

  // The worker gives it up and takes tasklet 1.
  lemma {:induction false} GivenUp() returns (s: State, l: Links)
    ensures Arrives(s, l) && !s.torn
    ensures s.threads(1) == Thread(Out, NoRun, StopAwait(0, 0, false, true), {0})
    ensures forall th: nat :: th != 1 ==> s.threads(th).run.NoRun?
    ensures s.tasklets(0) == Tasklet(0, Some(0), true, true)
    ensures s.queues(0).ring == [2] && s.queues(0).current == Some(1)
    ensures l.next(0) == 1 && l.prev(0) == 2
  {
    var s1, l1 := StopAwaits();
    Represented(s1, l1);
    assert Shows(l1, 0, [1, 2]);
    assert Edge(l1, [1, 2], 0) && Edge(l1, [1, 2], 1);
    s, l := Exec(s1, 0, VetoReturn), StepLinks(s1, 0, VetoReturn, l1);
    Go(s1, l1, 0, VetoReturn);
  }

  // The stop returns.
  lemma {:induction false} StoppedAsStray() returns (s: State, l: Links)
    ensures Arrives(s, l) && !s.torn && s.threads(1) == Thread(Out, NoRun, NoStop, {0})
    ensures forall th: nat :: th != 1 ==> s.threads(th).run.NoRun?
    ensures s.tasklets(0) == Tasklet(0, Some(0), true, true)
    ensures s.queues(0).ring == [2] && s.queues(0).current == Some(1)
    ensures l.next(0) == 1 && l.prev(0) == 2
  {
    var s1, l1 := GivenUp();
    s, l := Exec(s1, 1, StopWake), StepLinks(s1, 1, StopWake, l1);
    Go(s1, l1, 1, StopWake);
  }

  // Then it finishes tasklet 0: the one tasklet on the ring is left pointing to tasklet 1, which is on none.
  lemma {:induction false} Damaged() returns (s: State, l: Links)
    ensures Arrives(s, l) && s.torn && s.queues(0).ring == [2] && s.queues(0).current == Some(1)
    ensures l.head(0) == Some(2) && l.next(2) == 1 && !AllLinked(s, l)
  {
    var s1, l1 := StoppedAsStray();
    Represented(s1, l1);
    assert Shows(l1, 0, [2]);
    assert Edge(l1, [2], 0);
    var s2, l2 := Exec(s1, 1, StartStop(0, true)), StepLinks(s1, 1, StartStop(0, true), l1);
    Go(s1, l1, 1, StartStop(0, true));
    var s3, l3 := Exec(s2, 1, ReadStop), StepLinks(s2, 1, ReadStop, l2);
    Go(s2, l2, 1, ReadStop);
    s, l := Exec(s3, 1, StopSection), StepLinks(s3, 1, StopSection, l3);
    Go(s3, l3, 1, StopSection);
    UnlinkedSame([2], 0);
    assert Shows(l, 0, [2]) ==> Edge(l, [2], 0);
  }
}
