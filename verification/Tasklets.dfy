/** The whole tasklet scheduler: the run-queue half and the wait-list half, driven by the same threads.

    A call that the wait-list code makes of tasklet_run is a joint step: the thread sets `running` in
    the one half and starts a Run in the other; and tasklet_stop and tasklet_fini pass from their
    tasklet_unwait to the run queues in a joint step.  The callers' obligations are the guards of the
    user's steps: a call that names a tasklet as a waiter, or stops it, is made by a thread that owns
    the tasklet's mutex, as tasklet_stop and tasklet_fini assert. */
module Tasklets {
  import opened Options
  import opened Tables
  import Q = RunQueues
  import QI = RunQueueInvariant
  import QT = RunQueueTheorems
  import W = WaitLists
  import WI = WaitListInvariant
  import WT = WaitListTheorems

  // `parked` is `t->waited`, except that it is also cleared when t's own calls take t off its list.
  datatype State = State(q: Q.State, w: W.Lists, parked: Table<bool>)

  datatype Act =
    | Direct(t: nat)                 // user code calls tasklet_run(t)
    | Queue(a: Q.Action)             // a step inside tasklet_run, tasklet_stop, tasklet_fini or run_queue_run
    // User code locks, unlocks, vetoes, enters run_queue_run, or returns from a handler.
    | User(a: Q.Action)
    | List(c: W.Call)                // a step of wait-list code, or the call of it
    | BeginStop(t: nat, fini: bool)  // tasklet_stop or tasklet_fini goes on after its tasklet_unwait

  predicate Internal(a: Q.Action) {
    a.ReadRunq? || a.RunSection? || a.ReadStop? || a.StopSection? || a.StopWake? || a.LoopWake?
    || a.TransferOk? || a.VetoReturn?
  }

  predicate FromUser(a: Q.Action) {
    a.EnterLoop? || a.HandlerReturn? || a.Lock? || a.Unlock? || a.Veto?
  }

  // Nobody is in a call of tasklet_run(t) that user code made.
  ghost predicate NotRunDirectly(s: State, t: nat) {
    forall o: nat :: Q.RunTarget(s.q.threads(o).run) == Some(t) ==> s.w.clients(o).running == Some(t)
  }

  ghost predicate Owns(s: State, th: nat, t: nat) {
    s.q.tasklets(t).live && s.q.tasklets(t).mutex in s.q.threads(th).held
  }

  ghost predicate Can(s: State, th: nat, a: Act) {
    var x := s.q.threads(th);
    && th < s.w.n && !s.q.torn
    && match a
       case Direct(t) => W.Free(s.w.clients(th)) && Q.Enabled(s.q, th, Q.StartRun(t))
       case Queue(b) => Internal(b) && Q.Enabled(s.q, th, b)
       case User(b) => FromUser(b) && W.Free(s.w.clients(th)) && Q.Enabled(s.q, th, b)
       case List(c) =>
         && Q.Active(x.loop) && x.run.NoRun? && x.stop.NoStop? && !c.EndUnwait?
         && W.Allowed(s.w, th, c)
         && (c.CallWait? || c.CallUnwait? ==> Owns(s, th, c.t))
       case BeginStop(t, fini) =>
         && W.Allowed(s.w, th, W.EndUnwait) && s.w.clients(th).op.t == t
         && (fini ==> NotRunDirectly(s, t))
  }

  // `parked` after a step of wait-list code: a refusal sets it, success and tasklet_unwait clear it.
  ghost function Parks(s: State, th: nat, c: W.Call): Table<bool>
    requires W.Allowed(s.w, th, c)
  {
    var x := W.Perform(s.w, th, c).clients(th);
    if c.LockWait? && !x.op.retry then Put(s.parked, x.op.t, !x.op.got)
    else if c.UnwaitRemove? && x.unwait.UnwaitDone? then Put(s.parked, x.unwait.t, false)
    else s.parked
  }

  ghost function Do(s: State, th: nat, a: Act): State
    requires Can(s, th, a)
  {
    match a
    case Direct(t) => s.(q := Q.Exec(s.q, th, Q.StartRun(t)))
    case Queue(b) =>
      s.(q := Q.Exec(s.q, th, b),
         parked := if b.TransferOk? then Put(s.parked, s.q.threads(th).loop.t, false) else s.parked)
    case User(b) => s.(q := Q.Exec(s.q, th, b))
    case List(c) =>
      var w' := W.Perform(s.w, th, c);
      var r := w'.clients(th).running;
      State(if r.Some? && s.w.clients(th).running == None then Q.SetRun(s.q, th, Q.RunRead(r.value)) else s.q,
            w', Parks(s, th, c))
    case BeginStop(t, fini) =>
      s.(q := Q.SetStop(s.q, th, Q.StopRead(t, fini)), w := W.Perform(s.w, th, W.EndUnwait))
  }

  // ---------------------------------------------------------------- the joint invariant

  ghost predicate LinkOk(s: State, th: nat) {
    var x := s.q.threads(th);
    var y := s.w.clients(th);
    && (!W.Free(y) ==> Q.Active(x.loop) && x.stop.NoStop?)
    && (!x.run.NoRun? ==> W.Free(y) || y.running == Some(x.run.t))
    && (W.Target(y).Some? ==> Owns(s, th, W.Target(y).value))
    && (!x.stop.NoStop? ==> s.w.waiters(x.stop.t).wait == None)
  }

  // Only live tasklets are linked.
  ghost predicate LinkedOk(s: State, t: nat) {
    s.w.waiters(t).wait.Some? ==> s.q.tasklets(t).live
  }

  ghost predicate Joint(s: State) {
    && QI.Core(s.q) && WI.Sound(s.w) && WT.Serial(s.w)
    && (forall th: nat :: LinkOk(s, th))
    && (forall t: nat :: LinkedOk(s, t))
  }

  ghost predicate Init(s: State) {
    QI.Init(s.q) && WI.InitLists(s.w)
  }

  lemma {:induction false} InitJoint(s: State)
    requires Init(s)
    ensures Joint(s)
  {
    QI.InitCore(s.q);
    WI.InitSound(s.w);
  }

  // Tasklets get linked only by calls that name them.
  lemma {:induction false} LinkedBy(s: State, th: nat, c: W.Call, t: nat)
    requires Can(s, th, List(c)) && W.Perform(s.w, th, c).waiters(t).wait.Some? && s.w.waiters(t).wait == None
    ensures W.Target(s.w.clients(th)) == Some(t)
  {}

  // A tasklet named by a call in progress, or linked, is not being stopped or finished.
  lemma {:induction false} TargetNotStopped(s: State, th: nat, t: nat, k: nat)
    requires Joint(s) && W.Target(s.w.clients(th)) == Some(t) && !s.q.threads(k).stop.NoStop?
    ensures s.q.threads(k).stop.t != t
  {
    assert LinkOk(s, th) && LinkOk(s, k) && QI.ThreadOk(s.q, k) && QI.PairsOk(s.q, th, k);
  }

  lemma {:induction false} LinkedNotStopped(s: State, t: nat, k: nat)
    requires Joint(s) && s.w.waiters(t).wait.Some? && !s.q.threads(k).stop.NoStop?
    ensures s.q.threads(k).stop.t != t
  {
    assert LinkOk(s, k);
  }

  // The tasklet that the lists run is live, and nobody is stopping or finishing it.
  lemma {:induction false} ListRunAllowed(s: State, th: nat, c: W.Call)
    requires Joint(s) && Can(s, th, List(c))
    requires W.Perform(s.w, th, c).clients(th).running.Some? && s.w.clients(th).running == None
    ensures Q.Enabled(s.q, th, Q.StartRun(W.Perform(s.w, th, c).clients(th).running.value))
  {
    var w' := W.Perform(s.w, th, c);
    var x := w'.clients(th);
    var t := x.running.value;
    WI.PerformKeeps(s.w, th, c);
    assert WI.ClientOk(w', th) && WI.ListOk(w', if x.unwait.UnwaitDone? then x.unwait.w else x.op.w);
    assert LinkedOk(s, t);
    if s.w.waiters(t).wait == None {
      LinkedBy(s, th, c, t);
      assert LinkOk(s, th);
    }
    forall k: nat ensures !(!s.q.threads(k).stop.NoStop? && s.q.threads(k).stop.t == t && s.q.threads(k).stop.fini) {
      if !s.q.threads(k).stop.NoStop? {
        if s.w.waiters(t).wait == None { TargetNotStopped(s, th, t, k); } else { LinkedNotStopped(s, t, k); }
      }
    }
  }

  // The guard of the run-queue half holds when a tasklet_fini comes out of its tasklet_unwait:
  // nobody runs the tasklet on behalf of a list.
  lemma {:induction false} BeginStopAllowed(s: State, th: nat, t: nat, fini: bool)
    requires Joint(s) && Can(s, th, BeginStop(t, fini))
    ensures Q.Enabled(s.q, th, Q.StartStop(t, fini)) && s.w.waiters(t).wait == None
  {
    assert LinkOk(s, th) && WT.UnwaitedOk(s.w, th) && WI.ClientOk(s.w, th);
    forall o: nat | fini ensures Q.RunTarget(s.q.threads(o).run) != Some(t) {
      WT.NotRunByLists(s.w, t, o);
    }
  }

  // The serialisation that wait_list_fini relies on follows from the ownership of tasklet mutexes.
  lemma {:induction false} CallsSerial(s: State, th: nat, c: W.Call)
    requires Joint(s) && Can(s, th, List(c))
    ensures WT.SerialCall(s.w, th, c)
  {
    if c.CallWait? || c.CallUnwait? {
      forall k: nat ensures W.Target(s.w.clients(k)) != Some(c.t) {
        assert LinkOk(s, k) && QI.PairsOk(s.q, th, k);
      }
    }
  }

  // A call of wait-list code, rather than a step inside one.
  predicate Opens(c: W.Call) {
    c.CallUp? || c.CallWait? || c.CallSet? || c.CallClose? || c.CallUnwait?
  }

  lemma {:induction false} CallLinksOwn(s: State, th: nat, c: W.Call)
    requires Joint(s) && Can(s, th, List(c)) && Opens(c)
    ensures LinkOk(Do(s, th, List(c)), th)
  {
    assert LinkOk(s, th) && WI.ClientOk(s.w, th);
  }

  predicate OfUnwait(c: W.Call) {
    c.UnwaitLock? || c.UnwaitLook? || c.UnwaitLockList? || c.UnwaitRemove?
  }

  lemma {:induction false} UnwaitLinksOwn(s: State, th: nat, c: W.Call)
    requires Joint(s) && Can(s, th, List(c)) && OfUnwait(c)
    ensures LinkOk(Do(s, th, List(c)), th)
  {
    assert LinkOk(s, th) && WI.ClientOk(s.w, th);
  }

  lemma {:induction false} LockLinksOwn(s: State, th: nat, c: W.Call)
    requires Joint(s) && Can(s, th, List(c)) && (c.LockList? || c.LockWait?)
    ensures LinkOk(Do(s, th, List(c)), th)
  {
    assert LinkOk(s, th) && WI.ClientOk(s.w, th);
  }

  lemma {:induction false} ListLinksOwn(s: State, th: nat, c: W.Call)
    requires Joint(s) && Can(s, th, List(c))
    ensures LinkOk(Do(s, th, List(c)), th)
  {
    if Opens(c) {
      CallLinksOwn(s, th, c);
    } else if OfUnwait(c) {
      UnwaitLinksOwn(s, th, c);
    } else if c.LockList? || c.LockWait? {
      LockLinksOwn(s, th, c);
    } else {
      assert LinkOk(s, th) && WI.ClientOk(s.w, th);
    }
  }

  lemma {:induction false} StoppedStaysOff(s: State, th: nat, c: W.Call, k: nat)
    requires Joint(s) && Can(s, th, List(c)) && !s.q.threads(k).stop.NoStop?
    ensures W.Perform(s.w, th, c).waiters(s.q.threads(k).stop.t).wait == None
  {
    var t := s.q.threads(k).stop.t;
    assert LinkOk(s, k);
    if W.Perform(s.w, th, c).waiters(t).wait.Some? {
      LinkedBy(s, th, c, t);
      TargetNotStopped(s, th, t, k);
    }
  }

  lemma {:induction false} LinkStands(s: State, s': State, k: nat)
    requires LinkOk(s, k) && s'.q.threads(k) == s.q.threads(k) && s'.q.tasklets == s.q.tasklets
    requires var x, y := s.w.clients(k), s'.w.clients(k);
             y == x || (x.op.CloseAwait? && y == x.(op := W.CloseAwait(x.op.w, true)))
    requires var st := s.q.threads(k).stop; !st.NoStop? ==> s'.w.waiters(st.t).wait == None
    ensures LinkOk(s', k)
  {
  }

  lemma {:induction false} ListLinksOthers(s: State, th: nat, c: W.Call, k: nat)
    requires Joint(s) && Can(s, th, List(c)) && k != th
    ensures LinkOk(Do(s, th, List(c)), k)
  {
    if !s.q.threads(k).stop.NoStop? { StoppedStaysOff(s, th, c, k); }
    WT.OthersMove(s.w, th, c, k);
    LinkStands(s, Do(s, th, List(c)), k);
  }

  lemma {:induction false} ListLinked(s: State, th: nat, c: W.Call, t: nat)
    requires Joint(s) && Can(s, th, List(c))
    ensures LinkedOk(Do(s, th, List(c)), t)
  {
    var s' := Do(s, th, List(c));
    assert LinkedOk(s, t);
    if s'.w.waiters(t).wait.Some? && s.w.waiters(t).wait == None {
      LinkedBy(s, th, c, t);
      assert LinkOk(s, th);
    }
  }

  lemma {:induction false} ListKeeps(s: State, th: nat, c: W.Call)
    requires Joint(s) && Can(s, th, List(c))
    ensures Joint(Do(s, th, List(c)))
  {
    var s' := Do(s, th, List(c));
    CallsSerial(s, th, c);
    WI.PerformKeeps(s.w, th, c);
    WT.SerialKept(s.w, th, c);
    if s'.w.clients(th).running.Some? && s.w.clients(th).running == None {
      ListRunAllowed(s, th, c);
      QI.StepKeeps(s.q, th, Q.StartRun(s'.w.clients(th).running.value));
    }
    forall k: nat ensures LinkOk(s', k) {
      if k == th { ListLinksOwn(s, th, c); } else { ListLinksOthers(s, th, c, k); }
    }
    forall t: nat ensures LinkedOk(s', t) { ListLinked(s, th, c, t); }
  }

  lemma {:induction false} BeginStopKeeps(s: State, th: nat, t: nat, fini: bool)
    requires Joint(s) && Can(s, th, BeginStop(t, fini))
    ensures Joint(Do(s, th, BeginStop(t, fini)))
  {
    var s' := Do(s, th, BeginStop(t, fini));
    BeginStopAllowed(s, th, t, fini);
    QI.StepKeeps(s.q, th, Q.StartStop(t, fini));
    WI.PerformKeeps(s.w, th, W.EndUnwait);
    WT.SerialKept(s.w, th, W.EndUnwait);
    assert LinkOk(s, th) && WI.ClientOk(s.w, th) && WI.ClientOk(s'.w, th);
    forall k: nat ensures LinkOk(s', k) { assert LinkOk(s, k); }
    forall u: nat ensures LinkedOk(s', u) { assert LinkedOk(s, u); }
  }

  lemma {:induction false} QueueLinksOthers(s: State, th: nat, b: Q.Action, k: nat)
    requires Joint(s) && Q.Enabled(s.q, th, b) && k != th
    ensures LinkOk(s.(q := Q.Exec(s.q, th, b)), k)
  {
    assert LinkOk(s, k);
    QT.OthersNudged(s.q, th, b, k);
    if W.Target(s.w.clients(k)).Some? {
      var t := W.Target(s.w.clients(k)).value;
      if !s.q.threads(th).stop.NoStop? { TargetNotStopped(s, k, t, th); }
      QT.TaskletsKept(s.q, th, b, t);
    }
  }

  lemma {:induction false} QueueLinksOwn(s: State, th: nat, b: Q.Action)
    requires Joint(s) && Q.Enabled(s.q, th, b) && (Internal(b) || (FromUser(b) && W.Free(s.w.clients(th))))
    ensures LinkOk(s.(q := Q.Exec(s.q, th, b)), th)
  {
    assert LinkOk(s, th) && QI.ThreadOk(s.q, th);
    if b.HandlerReturn? { QT.HandlerReturnOwn(s.q, th); }
  }

  lemma {:induction false} QueueKeeps(s: State, th: nat, b: Q.Action, parked: Table<bool>)
    requires Joint(s) && Q.Enabled(s.q, th, b) && (Internal(b) || (FromUser(b) && W.Free(s.w.clients(th))))
    requires !Q.Exec(s.q, th, b).torn
    ensures Joint(State(Q.Exec(s.q, th, b), s.w, parked))
  {
    var s1 := s.(q := Q.Exec(s.q, th, b));
    var s' := s1.(parked := parked);
    QI.StepKeeps(s.q, th, b);
    forall k: nat ensures LinkOk(s', k) {
      if k == th { QueueLinksOwn(s, th, b); } else { QueueLinksOthers(s, th, b, k); }
      assert LinkOk(s1, k);
    }
    forall t: nat ensures LinkedOk(s', t) {
      assert LinkedOk(s, t);
      if s.w.waiters(t).wait.Some? {
        if !s.q.threads(th).stop.NoStop? { LinkedNotStopped(s, t, th); }
        QT.TaskletsKept(s.q, th, b, t);
      }
    }
  }

  lemma {:induction false} DirectKeeps(s: State, th: nat, t: nat)
    requires Joint(s) && Can(s, th, Direct(t))
    ensures Joint(Do(s, th, Direct(t)))
  {
    var s' := Do(s, th, Direct(t));
    QI.StepKeeps(s.q, th, Q.StartRun(t));
    forall k: nat ensures LinkOk(s', k) { assert LinkOk(s, k); }
    forall u: nat ensures LinkedOk(s', u) { assert LinkedOk(s, u); }
  }

  // Every step of the whole scheduler keeps the joint invariant, until a stray is unlinked.
  lemma {:induction false} JointKept(s: State, th: nat, a: Act)
    requires Joint(s) && Can(s, th, a)
    ensures Do(s, th, a).q.torn || Joint(Do(s, th, a))
  {
    match a
    case Direct(t) => DirectKeeps(s, th, t);
    case Queue(b) => if !Q.Exec(s.q, th, b).torn { QueueKeeps(s, th, b, Do(s, th, a).parked); }
    case User(b) => if !Q.Exec(s.q, th, b).torn { QueueKeeps(s, th, b, s.parked); }
    case List(c) => ListKeeps(s, th, c);
    case BeginStop(t, fini) => BeginStopKeeps(s, th, t, fini);
  }
}
