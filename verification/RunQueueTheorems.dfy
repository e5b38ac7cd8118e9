/** What the run-queue protocol guarantees over whole runs, and the two ways in which a stop from
    another thread departs from it. */
module RunQueueTheorems {
  import opened Options
  import opened Rings
  import opened Tables
  import opened RunQueues
  import opened RunQueueInvariant

  // ---------------------------------------------------------------- runs

  datatype Step = Step(th: nat, a: Action)

  ghost predicate Possible(s: State, steps: seq<Step>)
    decreases |steps|
  {
    steps == [] ||
    (Enabled(s, steps[0].th, steps[0].a) && Possible(Exec(s, steps[0].th, steps[0].a), steps[1..]))
  }

  ghost function After(s: State, steps: seq<Step>): State
    requires Possible(s, steps)
    decreases |steps|
  {
    if steps == [] then s else After(Exec(s, steps[0].th, steps[0].a), steps[1..])
  }

  // Every reachable state satisfies the invariant, until a stray tasklet is unlinked.
  lemma {:induction false} ReachableCore(s: State, steps: seq<Step>)
    requires Core(s) && Possible(s, steps)
    ensures After(s, steps).torn || Core(After(s, steps))
    decreases |steps|
  {
    if steps != [] {
      var s1 := Exec(s, steps[0].th, steps[0].a);
      StepKeeps(s, steps[0].th, steps[0].a);
      if s1.torn {
        assert steps[1..] == [];
      } else {
        ReachableCore(s1, steps[1..]);
      }
    }
  }

  // Stale links are followed by exactly one thing: a stop or fini that finds its tasklet naming the queue it
  // has locked, although an earlier vetoed transfer has left it stray.
  lemma {:induction false} TornByStray(s: State, th: nat, a: Action)
    requires Core(s) && Enabled(s, th, a)
    ensures var st := s.threads(th).stop;
            Exec(s, th, a).torn <==>
              a.StopSection? && s.tasklets(st.t).stray && s.tasklets(st.t).runq == Some(st.q)
  {
    assert ThreadOk(s, th);
    if a.StopSection? {
      var st := s.threads(th).stop;
      assert TaskletOk(s, st.t) && QueueOk(s, st.q);
    }
  }

  // ---------------------------------------------------------------- what a step leaves alone

  lemma {:induction false} HandlerReturnOthers(s: State, th: nat, k: nat, p: nat)
    requires Core(s) && Enabled(s, th, HandlerReturn) && k != th && p != s.threads(th).loop.q
    ensures var q := s.threads(th).loop.q;
            Exec(s, th, HandlerReturn).threads(k)
            == if s.queues(q).stopWaiting then SignalThread(s.threads(k), q) else s.threads(k)
    ensures Exec(s, th, HandlerReturn).queues(p) == s.queues(p)
  {
    var l := s.threads(th).loop;
    assert ThreadOk(s, th) && QueueOk(s, l.q) && PairsOk(s, th, s.queues(l.q).waiter);
    var s1 := AfterHandler(s, th, l.q, l.t);
    assert s1.threads(k) == s.threads(k);
  }

  lemma {:induction false} HandlerReturnOwn(s: State, th: nat)
    requires Core(s) && Enabled(s, th, HandlerReturn)
    ensures var y := Exec(s, th, HandlerReturn).threads(th);
            y.run.NoRun? && y.stop.NoStop? && y.held == {} && !y.loop.Handling?
  {
    var l := s.threads(th).loop;
    assert ThreadOk(s, th);
    var s0 := if s.queues(l.q).current == Some(l.t) then AfterHandler(s, th, l.q, l.t) else s;
    assert s0.threads(th).held == {} && s0.threads(th).stop.NoStop? && s0.threads(th).run.NoRun?;
  }

  // A step of th does to another thread at most a signal or a veto.
  ghost predicate Nudged(x: Thread, y: Thread) {
    && y.held == x.held && y.run == x.run
    && StopTarget(y.stop) == StopTarget(x.stop) && (!x.stop.NoStop? ==> y.stop.fini == x.stop.fini)
    && (Active(x.loop) ==> y.loop == x.loop) && (!Active(x.loop) ==> !Active(y.loop))
  }

  lemma {:induction false} OthersNudged(s: State, th: nat, a: Action, k: nat)
    requires Core(s) && Enabled(s, th, a) && k != th
    ensures Nudged(s.threads(k), Exec(s, th, a).threads(k))
  {
    if a.HandlerReturn? { HandlerReturnOthers(s, th, k, s.threads(th).loop.q + 1); }
  }

  // Tasklets keep their mutex, and die only at the end of a tasklet_fini.
  lemma {:induction false} TaskletsKept(s: State, th: nat, a: Action, t: nat)
    requires Core(s) && Enabled(s, th, a)
    ensures Exec(s, th, a).tasklets(t).mutex == s.tasklets(t).mutex
    ensures s.tasklets(t).live && StopTarget(s.threads(th).stop) != Some(t) ==> Exec(s, th, a).tasklets(t).live
  {
    if a.HandlerReturn? {
      assert AfterHandler(s, th, s.threads(th).loop.q, s.threads(th).loop.t).tasklets(t).live == s.tasklets(t).live;
    }
  }

  // ---------------------------------------------------------------- ownership

  // `t->runq` names q exactly when t is on q's ring or is q's current tasklet, never both, and it is
  // linked at most once: so no tasklet is ever on two queues.
  lemma {:induction false} Ownership(s: State, t: nat, q: nat)
    requires Core(s) && s.tasklets(t).live && !s.tasklets(t).stray
    ensures s.tasklets(t).runq == Some(q) <==> (t in s.queues(q).ring || s.queues(q).current == Some(t))
    ensures !(t in s.queues(q).ring && s.queues(q).current == Some(t))
    ensures multiset(s.queues(q).ring)[t] <= 1
  {
    assert QueueOk(s, q) && TaskletOk(s, t);
    DistinctCount(s.queues(q).ring, t);
  }

  lemma {:induction false} DistinctCount(r: seq<nat>, t: nat)
    requires Distinct(r)
    ensures multiset(r)[t] <= 1
  {
    if r != [] {
      DistinctTail(r);
      DistinctCount(r[1..], t);
      assert r == [r[0]] + r[1..];
    }
  }

  // A tasklet's handler runs on at most one thread at a time, and that thread owns the tasklet's mutex.
  lemma {:induction false} HandlerExclusive(s: State, a: nat, b: nat, p: nat, q: nat, t: nat)
    requires Core(s) && s.tasklets(t).live
    requires s.threads(a).loop == Handling(p, t) && s.threads(b).loop == Handling(q, t)
    ensures a == b && s.tasklets(t).mutex in s.threads(a).held
  {
    assert ThreadOk(s, a) && ThreadOk(s, b) && PairsOk(s, a, b);
  }

  // ---------------------------------------------------------------- no lost wakeup

  // A start of t's handler is due.
  ghost predicate Pending(s: State, t: nat) {
    var tk := s.tasklets(t);
    && tk.live && !tk.stray && tk.runq.Some?
    && var rq := s.queues(tk.runq.value);
       || t in rq.ring
       || (rq.current == Some(t)
           && (rq.state == Requeue || (rq.state == Started && !s.threads(rq.thread).loop.Handling?)))
  }

  ghost predicate StartsHandler(s: State, st: Step, t: nat) {
    st.a.TransferOk? && s.threads(st.th).loop.Transfer? && s.threads(st.th).loop.t == t
  }

  ghost predicate StopsTasklet(s: State, st: Step, t: nat) {
    st.a.StopSection? && !s.threads(st.th).stop.NoStop? && s.threads(st.th).stop.t == t
  }

  // When tasklet_run(t) returns, a start of the handler is due.
  lemma {:induction false} RunSchedules(s: State, th: nat)
    requires Core(s) && Enabled(s, th, RunSection)
    requires Exec(s, th, RunSection).threads(th).run.NoRun?
    requires !s.tasklets(s.threads(th).run.t).stray
    ensures Pending(Exec(s, th, RunSection), s.threads(th).run.t)
  {
    assert ThreadOk(s, th) && TaskletOk(s, s.threads(th).run.t);
  }

  lemma {:induction false} PendingThroughNext(s: State, th: nat, q: nat, t: nat)
    requires Distinct(s.queues(q).ring)
    requires s.tasklets(t).live && !s.tasklets(t).stray && s.tasklets(t).runq.Some?
    requires t in s.queues(s.tasklets(t).runq.value).ring ||
             (s.tasklets(t).runq != Some(q) && Pending(s, t) && s.queues(s.tasklets(t).runq.value).thread != th)
    ensures Pending(Next(s, th, q), t)
  {
    if s.queues(q).ring != [] { DistinctTail(s.queues(q).ring); }
  }

  lemma {:induction false} PendingKeptLeaving(s: State, st: Step, t: nat)
    requires Core(s) && Enabled(s, st.th, st.a) && Pending(s, t)
    requires st.a.VetoReturn? || st.a.HandlerReturn?
    ensures Pending(Exec(s, st.th, st.a), t)
  {
    var l := s.threads(st.th).loop;
    var q := s.tasklets(t).runq.value;
    assert ThreadOk(s, st.th) && QueueOk(s, q) && QueueOk(s, l.q);
    if st.a.VetoReturn? {
      if s.queues(l.q).state == Stopped { PendingThroughNext(MarkStray(s, l.t), st.th, l.q, t); }
    } else if s.queues(l.q).current == Some(l.t) {
      DistinctSnoc(s.queues(l.q).ring, l.t);
      PendingThroughNext(AfterHandler(s, st.th, l.q, l.t), st.th, l.q, t);
    } else {
      PendingThroughNext(s, st.th, l.q, t);
    }
  }

  lemma {:induction false} PendingKeptStopping(s: State, st: Step, t: nat)
    requires Core(s) && Enabled(s, st.th, st.a) && Pending(s, t) && !Exec(s, st.th, st.a).torn
    requires (st.a.StopSection? && s.threads(st.th).stop.t != t) || st.a.ReadStop? || st.a.StopWake?
    ensures Pending(Exec(s, st.th, st.a), t)
  {
    var x := s.threads(st.th);
    assert ThreadOk(s, st.th) && QueueOk(s, s.tasklets(t).runq.value);
    if st.a.StopSection? {
      assert QueueOk(s, x.stop.q);
      UnlinkedKeeps(s.queues(x.stop.q).ring, x.stop.t);
    }
  }

  lemma {:induction false} PendingKeptEntering(s: State, st: Step, t: nat)
    requires Core(s) && Enabled(s, st.th, st.a) && Pending(s, t)
    requires st.a.EnterLoop? || st.a.LoopWake?
    ensures Pending(Exec(s, st.th, st.a), t)
  {
    var q := s.tasklets(t).runq.value;
    assert ThreadOk(s, st.th) && QueueOk(s, q);
    if s.queues(q).ring != [] { DistinctTail(s.queues(q).ring); }
  }

  // It stays due whatever any thread does, vetoed transfers included, until the handler starts or
  // the tasklet is stopped.
  lemma {:induction false} PendingKept(s: State, st: Step, t: nat)
    requires Core(s) && Enabled(s, st.th, st.a) && Pending(s, t) && !Exec(s, st.th, st.a).torn
    requires !StartsHandler(s, st, t) && !StopsTasklet(s, st, t)
    ensures Pending(Exec(s, st.th, st.a), t)
  {
    var q := s.tasklets(t).runq.value;
    if st.a.VetoReturn? || st.a.HandlerReturn? {
      PendingKeptLeaving(s, st, t);
    } else if st.a.StopSection? || st.a.ReadStop? || st.a.StopWake? {
      PendingKeptStopping(s, st, t);
    } else if st.a.EnterLoop? || st.a.LoopWake? {
      PendingKeptEntering(s, st, t);
    } else {
      assert ThreadOk(s, st.th) && QueueOk(s, q);
    }
  }

  ghost predicate Undisturbed(s: State, steps: seq<Step>, t: nat)
    requires Possible(s, steps)
    decreases |steps|
  {
    steps == [] ||
    (!StartsHandler(s, steps[0], t) && !StopsTasklet(s, steps[0], t)
     && Undisturbed(Exec(s, steps[0].th, steps[0].a), steps[1..], t))
  }

  // Over any run: from the return of tasklet_run(t) a start stays due for as long as the handler has
  // not started and nobody has stopped t.
  lemma {:induction false} WakeupNotLost(s: State, steps: seq<Step>, t: nat)
    requires Core(s) && Pending(s, t) && Possible(s, steps) && Undisturbed(s, steps, t)
    ensures After(s, steps).torn || Pending(After(s, steps), t)
    decreases |steps|
  {
    if steps != [] {
      var s1 := Exec(s, steps[0].th, steps[0].a);
      StepKeeps(s, steps[0].th, steps[0].a);
      if s1.torn {
        assert steps[1..] == [];
      } else {
        PendingKept(s, steps[0], t);
        WakeupNotLost(s1, steps[1..], t);
      }
    }
  }

  // ---------------------------------------------------------------- quiescence

  // t is on no ring, and nobody is about to start its handler; at most the handler that stopped t
  // is still running.
  ghost predicate Quiet(s: State, t: nat) {
    forall q: nat :: QuietOn(s, q, t)
  }

  ghost predicate QuietOn(s: State, q: nat, t: nat) {
    var rq := s.queues(q);
    && t !in rq.ring
    && (rq.current == Some(t) ==> rq.state == Stopped && s.threads(rq.thread).loop.Handling?)
  }

  // tasklet_stop and tasklet_fini return with t quiet, from whichever thread they are called.
  lemma {:induction false} StopReturnsQuiet(s: State, th: nat, a: Action)
    requires Core(s) && Enabled(s, th, a) && !Exec(s, th, a).torn
    requires !s.threads(th).stop.NoStop? && Exec(s, th, a).threads(th).stop.NoStop?
    ensures Quiet(Exec(s, th, a), s.threads(th).stop.t)
  {
    var st := s.threads(th).stop;
    var s' := Exec(s, th, a);
    assert ThreadOk(s, th) && TaskletOk(s, st.t);
    forall q: nat ensures QuietOn(s', q, st.t) {
      assert QueueOk(s, q);
      if a.StopSection? { UnlinkedKeeps(s.queues(q).ring, st.t); }
    }
  }

  ghost predicate RunsTasklet(s: State, st: Step, t: nat) {
    st.a.RunSection? && !s.threads(st.th).run.NoRun? && s.threads(st.th).run.t == t
  }

  lemma {:induction false} QuietThroughBegin(s: State, th: nat, p: nat, q: nat, t: nat)
    requires t !in s.queues(q).ring && t !in s.queues(p).ring
    requires q != p ==> QuietOn(s, q, t) && (s.queues(q).current.Some? ==> s.queues(q).thread != th)
    ensures QuietOn(BeginNext(s, th, p), q, t)
  {
    if s.queues(p).ring != [] { assert s.queues(p).ring[0] in s.queues(p).ring; }
  }

  lemma {:induction false} QuietThroughNext(s: State, th: nat, p: nat, q: nat, t: nat)
    requires t !in s.queues(q).ring && t !in s.queues(p).ring
    requires q != p ==> QuietOn(s, q, t) && (s.queues(q).current.Some? ==> s.queues(q).thread != th)
    ensures QuietOn(Next(s, th, p), q, t)
  {
    QuietThroughBegin(WakeStoppers(s, p), th, p, q, t);
  }

  lemma {:induction false} QuietKeptLeaving(s: State, st: Step, t: nat, q: nat)
    requires Core(s) && Enabled(s, st.th, st.a) && Quiet(s, t)
    requires st.a.VetoReturn? || st.a.HandlerReturn?
    ensures QuietOn(Exec(s, st.th, st.a), q, t)
  {
    var l := s.threads(st.th).loop;
    assert ThreadOk(s, st.th) && QueueOk(s, q) && QueueOk(s, l.q) && QuietOn(s, q, t) && QuietOn(s, l.q, t);
    if st.a.VetoReturn? {
      if s.queues(l.q).state == Stopped { QuietThroughNext(MarkStray(s, l.t), st.th, l.q, q, t); }
    } else if s.queues(l.q).current == Some(l.t) {
      QuietThroughNext(AfterHandler(s, st.th, l.q, l.t), st.th, l.q, q, t);
    } else {
      QuietThroughNext(s, st.th, l.q, q, t);
    }
  }

  lemma {:induction false} QuietKeptEntering(s: State, st: Step, t: nat, q: nat)
    requires Core(s) && Enabled(s, st.th, st.a) && Quiet(s, t)
    requires st.a.EnterLoop? || st.a.LoopWake?
    ensures QuietOn(Exec(s, st.th, st.a), q, t)
  {
    var p := if st.a.EnterLoop? then st.a.q else s.threads(st.th).loop.q;
    assert ThreadOk(s, st.th) && QueueOk(s, q) && QueueOk(s, p) && QuietOn(s, q, t) && QuietOn(s, p, t);
    if s.queues(p).ring != [] {
      QuietThroughBegin(if st.a.EnterLoop? then s else s.(queues := Put(s.queues, p,
        s.queues(p).(workerWaiting := false))),
                        st.th, p, q, t);
    }
  }

  lemma {:induction false} QuietKeptStopping(s: State, st: Step, t: nat, q: nat)
    requires Core(s) && Enabled(s, st.th, st.a) && Quiet(s, t) && st.a.StopSection?
    ensures QuietOn(Exec(s, st.th, st.a), q, t)
  {
    assert ThreadOk(s, st.th) && QuietOn(s, q, t) && QueueOk(s, q);
    UnlinkedKeeps(s.queues(q).ring, s.threads(st.th).stop.t);
  }

  // A quiet tasklet stays quiet, and its handler is not started, until another tasklet_run(t).
  lemma {:induction false} QuietKept(s: State, st: Step, t: nat)
    requires Core(s) && Enabled(s, st.th, st.a) && Quiet(s, t)
    requires !RunsTasklet(s, st, t)
    ensures Quiet(Exec(s, st.th, st.a), t) && !StartsHandler(s, st, t)
  {
    var s' := Exec(s, st.th, st.a);
    var x := s.threads(st.th);
    assert ThreadOk(s, st.th);
    if st.a.TransferOk? { assert QuietOn(s, x.loop.q, t); }
    forall q: nat ensures QuietOn(s', q, t) {
      if st.a.VetoReturn? || st.a.HandlerReturn? {
        QuietKeptLeaving(s, st, t, q);
      } else if st.a.EnterLoop? || st.a.LoopWake? {
        QuietKeptEntering(s, st, t, q);
      } else if st.a.StopSection? {
        QuietKeptStopping(s, st, t, q);
      } else {
        assert QuietOn(s, q, t) && QueueOk(s, q);
      }
    }
  }

  ghost predicate NeverRun(s: State, steps: seq<Step>, t: nat)
    requires Possible(s, steps)
    decreases |steps|
  {
    steps == [] ||
    (!RunsTasklet(s, steps[0], t) && NeverRun(Exec(s, steps[0].th, steps[0].a), steps[1..], t))
  }

  ghost predicate NeverStarts(s: State, steps: seq<Step>, t: nat)
    requires Possible(s, steps)
    decreases |steps|
  {
    steps == [] ||
    (!StartsHandler(s, steps[0], t) && NeverStarts(Exec(s, steps[0].th, steps[0].a), steps[1..], t))
  }

  lemma {:induction false} Quiescence(s: State, steps: seq<Step>, t: nat)
    requires Core(s) && Quiet(s, t) && Possible(s, steps) && NeverRun(s, steps, t)
    ensures NeverStarts(s, steps, t) && Quiet(After(s, steps), t)
    decreases |steps|
  {
    if steps != [] {
      var s1 := Exec(s, steps[0].th, steps[0].a);
      StepKeeps(s, steps[0].th, steps[0].a);
      QuietKept(s, steps[0], t);
      if s1.torn {
        assert steps[1..] == [];
      } else {
        Quiescence(s1, steps[1..], t);
      }
    }
  }

  // ---------------------------------------------------------------- condition variables

  ghost predicate WaitsUnsignalled(x: Thread, q: nat) {
    (x.loop.Await? && x.loop.q == q && !x.loop.signalled) || (x.stop.StopAwait? && x.stop.q == q && !x.stop.signalled)
  }

  // At most one thread waits unsignalled on a queue's condition variable, so that one cond_signal
  // is as good as a broadcast, although workers and stoppers share the variable.
  lemma {:induction false} OneWaiter(s: State, a: nat, b: nat, q: nat)
    requires Core(s) && WaitsUnsignalled(s.threads(a), q) && WaitsUnsignalled(s.threads(b), q)
    ensures a == b
  {
    assert ThreadOk(s, a) && ThreadOk(s, b) && PairsOk(s, a, b);
  }

  // No signal is missed: a thread that waits unsignalled still has something to wait for.
  lemma {:induction false} NoMissedSignal(s: State, th: nat, q: nat)
    requires Core(s) && WaitsUnsignalled(s.threads(th), q)
    ensures if s.threads(th).loop.Await? then s.queues(q).ring == []
            else s.queues(q).current == Some(s.threads(th).stop.t)
  {
    assert ThreadOk(s, th);
  }

  // `stop_waiting` is set only while a stopper waits unsignalled, so that a worker broadcasts to somebody.
  ghost predicate StopperWaits(s: State, q: nat) {
    s.queues(q).stopWaiting ==> exists th: nat :: AwaitsOn(s, th, q)
  }

  ghost predicate AwaitsOn(s: State, th: nat, q: nat) {
    var st := s.threads(th).stop;
    st.StopAwait? && st.q == q && !st.signalled
  }

  lemma {:induction false} StillAwaits(s: State, th: nat, a: Action, q: nat, k: nat)
    requires Core(s) && Enabled(s, th, a) && AwaitsOn(s, k, q)
    ensures Exec(s, th, a).queues(q).stopWaiting ==> AwaitsOn(Exec(s, th, a), k, q)
  {
    assert ThreadOk(s, k) && ThreadOk(s, th) && QueueOk(s, q) && ThreadOk(s, s.queues(q).waiter);
    if a.HandlerReturn? {
      var l := s.threads(th).loop;
      if l.q != q {
        HandlerReturnOthers(s, th, k, q);
      } else {
        assert !Exec(s, th, a).queues(q).stopWaiting;
      }
    }
  }

  lemma {:induction false} StopperStillWaits(s: State, th: nat, a: Action, q: nat)
    requires Core(s) && Enabled(s, th, a) && StopperWaits(s, q)
    ensures StopperWaits(Exec(s, th, a), q)
  {
    if s.queues(q).stopWaiting {
      var k: nat :| AwaitsOn(s, k, q);
      StillAwaits(s, th, a, q, k);
    } else if Exec(s, th, a).queues(q).stopWaiting {
      if a.HandlerReturn? { HandlerReturnOthers(s, th, th + 1, q); }
      assert AwaitsOn(Exec(s, th, a), th, q);
    }
  }

  lemma {:induction false} BroadcastsHeard(s: State, steps: seq<Step>, q: nat)
    requires Core(s) && Possible(s, steps) && StopperWaits(s, q)
    ensures After(s, steps).torn || StopperWaits(After(s, steps), q)
    decreases |steps|
  {
    if steps != [] {
      var s1 := Exec(s, steps[0].th, steps[0].a);
      StepKeeps(s, steps[0].th, steps[0].a);
      StopperStillWaits(s, steps[0].th, steps[0].a, q);
      if s1.torn {
        assert steps[1..] == [];
      } else {
        BroadcastsHeard(s1, steps[1..], q);
      }
    }
  }

  // ---------------------------------------------------------------- strays

  // A stray is exactly a live tasklet that names a queue on which it is neither linked nor current.
  lemma {:induction false} StrayMeans(s: State, t: nat)
    requires Core(s) && s.tasklets(t).live
    ensures s.tasklets(t).stray <==>
              s.tasklets(t).runq.Some? && t !in s.queues(s.tasklets(t).runq.value).ring
              && s.queues(s.tasklets(t).runq.value).current != Some(t)
  {
    assert TaskletOk(s, t);
    if s.tasklets(t).runq.Some? { assert QueueOk(s, s.tasklets(t).runq.value); }
  }

  // Strays come from one place: the `goto next` of line 534, taken for a stopped tasklet.
  lemma {:induction false} StrayArises(s: State, st: Step, t: nat)
    requires Core(s) && Enabled(s, st.th, st.a) && !s.tasklets(t).stray
    ensures Exec(s, st.th, st.a).tasklets(t).stray <==>
              && st.a.VetoReturn? && s.threads(st.th).loop.t == t
              && s.queues(s.threads(st.th).loop.q).state == Stopped
  {}

  // tasklet_run does its job exactly when t is not a stray; on a stray it returns having changed
  // nothing but the caller's own position.
  lemma {:induction false} RunSchedulesUnlessStray(s: State, th: nat)
    requires Core(s) && Enabled(s, th, RunSection)
    requires Exec(s, th, RunSection).threads(th).run.NoRun?
    ensures Pending(Exec(s, th, RunSection), s.threads(th).run.t) <==> !s.tasklets(s.threads(th).run.t).stray
    ensures s.tasklets(s.threads(th).run.t).stray ==> Exec(s, th, RunSection) == SetRun(s, th, NoRun)
  {
    var t := s.threads(th).run.t;
    assert ThreadOk(s, th) && TaskletOk(s, t);
    if s.tasklets(t).stray {
      assert QueueOk(s, s.tasklets(t).runq.value);
    } else {
      RunSchedules(s, th);
    }
  }

  // Once a stray, always a stray: no sequence of steps puts it on a ring or starts its handler,
  // however often tasklet_run is called for it.
  lemma {:induction false} StrayForever(s: State, steps: seq<Step>, t: nat)
    requires Core(s) && s.tasklets(t).stray && s.tasklets(t).live && Possible(s, steps)
    ensures NeverStarts(s, steps, t)
    ensures After(s, steps).tasklets(t).stray
    decreases |steps|
  {
    if steps != [] {
      var st := steps[0];
      var s1 := Exec(s, st.th, st.a);
      assert ThreadOk(s, st.th);
      if !s.threads(st.th).loop.Out? { assert QueueOk(s, s.threads(st.th).loop.q); }
      StepKeeps(s, st.th, st.a);
      if s1.torn {
        assert steps[1..] == [];
      } else if s1.tasklets(t).live {
        StrayForever(s1, steps[1..], t);
      } else {
        DeadForever(s1, steps[1..], t);
      }
    }
  }

  lemma {:induction false} DeadForever(s: State, steps: seq<Step>, t: nat)
    requires Core(s) && !s.tasklets(t).live && Possible(s, steps)
    ensures NeverStarts(s, steps, t)
    ensures After(s, steps).tasklets(t).stray == s.tasklets(t).stray
    decreases |steps|
  {
    if steps != [] {
      var st := steps[0];
      var s1 := Exec(s, st.th, st.a);
      assert ThreadOk(s, st.th);
      if !s.threads(st.th).loop.Out? { assert QueueOk(s, s.threads(st.th).loop.q); }
      StepKeeps(s, st.th, st.a);
      if s1.torn {
        assert steps[1..] == [];
      } else {
        DeadForever(s1, steps[1..], t);
      }
    }
  }

  // ---------------------------------------------------------------- stop racing run

  // Thread a, owning t's mutex, waits for thread w to give t up; w waits for t's mutex.
  ghost predicate Jammed(s: State, a: nat, w: nat, t: nat, q: nat) {
    && s.threads(a).stop.StopAwait? && s.threads(a).stop.t == t && s.threads(a).stop.q == q
    && !s.threads(a).stop.signalled
    && s.threads(w).loop == Transfer(q, t)
  }

  // The jam is permanent: neither thread takes a step, and no step of any other thread helps.
  lemma {:induction false} JammedForever(s: State, a: nat, w: nat, t: nat, q: nat, st: Step)
    requires Core(s) && Jammed(s, a, w, t, q) && Enabled(s, st.th, st.a)
    ensures st.th != a && st.th != w
    ensures Jammed(Exec(s, st.th, st.a), a, w, t, q)
  {
    var x := s.threads(st.th);
    assert ThreadOk(s, a) && ThreadOk(s, w) && ThreadOk(s, st.th);
    assert PairsOk(s, st.th, a) && PairsOk(s, st.th, w);
    if st.a.RunSection? { assert QueueOk(s, x.run.q) && ThreadOk(s, s.queues(x.run.q).waiter); }
    if st.a.HandlerReturn? { HandlerReturnOthers(s, st.th, a, q); HandlerReturnOthers(s, st.th, w, q); }
  }

  // A stop from another thread, before the vetoed worker has looked at `current_state`.
  ghost predicate Cancelling(s: State, a: nat, w: nat, t: nat, q: nat, state: CurrentState) {
    && s.threads(a).stop.StopAwait? && s.threads(a).stop.t == t && s.threads(a).stop.q == q
    && !s.threads(a).stop.signalled
    && s.threads(w).loop == Vetoed(q, t) && s.queues(q).state == state
  }

  lemma {:induction false} ForeignStopCancels(s: State, a: nat)
    requires Core(s) && Enabled(s, a, StopSection)
    requires Exec(s, a, StopSection).threads(a).stop.StopAwait?
    ensures var st := s.threads(a).stop;
            Cancelling(Exec(s, a, StopSection), a, s.queues(st.q).thread, st.t, st.q, Stopped)
  {
    var st := s.threads(a).stop;
    assert ThreadOk(s, a) && QueueOk(s, st.q) && ThreadOk(s, s.queues(st.q).thread);
    assert PairsOk(s, a, s.queues(st.q).thread);
  }

  // A tasklet_run(t) gets in on q, between the stop and the worker's look.
  ghost predicate Races(s: State, st: Step, t: nat, q: nat) {
    var r := s.threads(st.th).run;
    st.a.RunSection? && r.RunLock? && r.t == t && r.q == q && !r.unowned
  }

  lemma {:induction false} CancelLook(s: State, a: nat, w: nat, t: nat, q: nat, x: Action)
    requires Core(s) && (Cancelling(s, a, w, t, q, Stopped) || Cancelling(s, a, w, t, q, Requeue)) && Enabled(s, w, x)
    ensures var s' := Exec(s, w, x);
            if s.queues(q).state == Stopped then s'.threads(a).stop.StopAwait? && s'.threads(a).stop.signalled
            else Jammed(s', a, w, t, q)
  {
    assert ThreadOk(s, a) && ThreadOk(s, w) && PairsOk(s, w, a) && QueueOk(s, q);
  }

  lemma {:induction false} CancelReturn(s: State, a: nat, w: nat, t: nat, q: nat, k: nat)
    requires Core(s) && (Cancelling(s, a, w, t, q, Stopped) || Cancelling(s, a, w, t, q, Requeue))
    requires Enabled(s, k, HandlerReturn)
    ensures k != w && Cancelling(Exec(s, k, HandlerReturn), a, w, t, q, s.queues(q).state)
  {
    assert ThreadOk(s, a) && ThreadOk(s, w) && ThreadOk(s, k) && PairsOk(s, k, a) && PairsOk(s, k, w) && QueueOk(s, q);
    HandlerReturnOthers(s, k, a, q);
    HandlerReturnOthers(s, k, w, q);
  }

  lemma {:induction false} CancelRun(s: State, a: nat, w: nat, t: nat, q: nat, k: nat)
    requires Core(s) && (Cancelling(s, a, w, t, q, Stopped) || Cancelling(s, a, w, t, q, Requeue))
    requires Enabled(s, k, RunSection)
    ensures k != w
    ensures Cancelling(Exec(s, k, RunSection), a, w, t, q,
                       if Races(s, Step(k, RunSection), t, q) then Requeue else s.queues(q).state)
  {
    assert ThreadOk(s, a) && ThreadOk(s, w) && ThreadOk(s, k) && PairsOk(s, k, a) && PairsOk(s, k, w) && QueueOk(s, q);
    var r := s.threads(k).run;
    assert QueueOk(s, r.q) && ThreadOk(s, s.queues(r.q).waiter);
  }

  lemma {:induction false} CancelOther(s: State, a: nat, w: nat, t: nat, q: nat, st: Step)
    requires Core(s) && (Cancelling(s, a, w, t, q, Stopped) || Cancelling(s, a, w, t, q, Requeue))
    requires Enabled(s, st.th, st.a) && st.th != w && !st.a.RunSection? && !st.a.HandlerReturn?
    ensures Cancelling(Exec(s, st.th, st.a), a, w, t, q, s.queues(q).state)
  {
    assert ThreadOk(s, a) && ThreadOk(s, w) && ThreadOk(s, st.th);
    assert PairsOk(s, st.th, a) && PairsOk(s, st.th, w) && QueueOk(s, q);
  }

  lemma {:induction false} CancellingStep(s: State, a: nat, w: nat, t: nat, q: nat, st: Step)
    requires Core(s) && (Cancelling(s, a, w, t, q, Stopped) || Cancelling(s, a, w, t, q, Requeue))
    requires Enabled(s, st.th, st.a) && st.th != w
    ensures Cancelling(Exec(s, st.th, st.a), a, w, t, q, if Races(s, st, t, q) then Requeue else s.queues(q).state)
  {
    if st.a.HandlerReturn? { CancelReturn(s, a, w, t, q, st.th); }
    else if st.a.RunSection? { CancelRun(s, a, w, t, q, st.th); }
    else { CancelOther(s, a, w, t, q, st); }
  }

  // What becomes of such a stop: if the worker looks first, the stopper is signalled and the stop
  // returns; if a tasklet_run(t) gets in first, the stop and the worker jam each other for ever.
  lemma {:induction false} CancelStep(s: State, a: nat, w: nat, t: nat, q: nat, st: Step)
    requires Core(s) && Cancelling(s, a, w, t, q, Stopped) && Enabled(s, st.th, st.a)
    ensures var s' := Exec(s, st.th, st.a);
            if st.th == w then s'.threads(a).stop.StopAwait? && s'.threads(a).stop.signalled
            else Cancelling(s', a, w, t, q, if Races(s, st, t, q) then Requeue else Stopped)
  {
    if st.th == w { CancelLook(s, a, w, t, q, st.a); } else { CancellingStep(s, a, w, t, q, st); }
  }

  lemma {:induction false} RacedStep(s: State, a: nat, w: nat, t: nat, q: nat, st: Step)
    requires Core(s) && Cancelling(s, a, w, t, q, Requeue) && Enabled(s, st.th, st.a)
    ensures var s' := Exec(s, st.th, st.a);
            if st.th == w then Jammed(s', a, w, t, q) else Cancelling(s', a, w, t, q, Requeue)
  {
    if st.th == w { CancelLook(s, a, w, t, q, st.a); } else { CancellingStep(s, a, w, t, q, st); }
  }

  // The worker's look comes, and before every tasklet_run(t) on q.
  ghost predicate LooksFirst(s: State, steps: seq<Step>, w: nat, t: nat, q: nat)
    requires Possible(s, steps)
    decreases |steps|
  {
    steps != [] &&
    (steps[0].th == w ||
     (!Races(s, steps[0], t, q) && LooksFirst(Exec(s, steps[0].th, steps[0].a), steps[1..], w, t, q)))
  }

  // The stopper is signalled at some point of the run.
  ghost predicate GetsSignalled(s: State, steps: seq<Step>, a: nat)
    requires Possible(s, steps)
    decreases |steps|
  {
    || (s.threads(a).stop.StopAwait? && s.threads(a).stop.signalled)
    || (steps != [] && GetsSignalled(Exec(s, steps[0].th, steps[0].a), steps[1..], a))
  }

  // Over every run: the stop of another thread's tasklet is ever answered if and only if the worker looks
  // before anybody runs the tasklet.
  lemma {:induction false} StopAnsweredIff(s: State, steps: seq<Step>, a: nat, w: nat, t: nat, q: nat)
    requires Core(s) && Cancelling(s, a, w, t, q, Stopped) && Possible(s, steps)
    ensures GetsSignalled(s, steps, a) <==> LooksFirst(s, steps, w, t, q)
    decreases |steps|
  {
    if steps != [] {
      var st := steps[0];
      var s1 := Exec(s, st.th, st.a);
      CancelStep(s, a, w, t, q, st);
      StepKeeps(s, st.th, st.a);
      if s1.torn {
        assert steps[1..] == [];
      } else if Races(s, st, t, q) && st.th != w {
        NeverAnswered(s1, steps[1..], a, w, t, q);
      } else if st.th != w {
        StopAnsweredIff(s1, steps[1..], a, w, t, q);
      }
    }
  }

  lemma {:induction false} NeverAnswered(s: State, steps: seq<Step>, a: nat, w: nat, t: nat, q: nat)
    requires Core(s) && (Cancelling(s, a, w, t, q, Requeue) || Jammed(s, a, w, t, q)) && Possible(s, steps)
    ensures !GetsSignalled(s, steps, a)
    decreases |steps|
  {
    if steps != [] {
      var st := steps[0];
      var s1 := Exec(s, st.th, st.a);
      if Jammed(s, a, w, t, q) { JammedForever(s, a, w, t, q, st); } else { RacedStep(s, a, w, t, q, st); }
      StepKeeps(s, st.th, st.a);
      if s1.torn { assert steps[1..] == []; } else { NeverAnswered(s1, steps[1..], a, w, t, q); }
    }
  }
}
