/** What the whole scheduler guarantees: stopped tasklets stay stopped, and its locks cannot deadlock. */
module TaskletTheorems {
  import opened Options
  import Q = RunQueues
  import QI = RunQueueInvariant
  import QT = RunQueueTheorems
  import W = WaitLists
  import WI = WaitListInvariant
  import WT = WaitListTheorems
  import opened Tasklets

  datatype Deed = Deed(th: nat, a: Act)

  ghost predicate Viable(s: State, deeds: seq<Deed>)
    decreases |deeds|
  {
    deeds == [] || (Can(s, deeds[0].th, deeds[0].a) && Viable(Do(s, deeds[0].th, deeds[0].a), deeds[1..]))
  }

  ghost function Outcome(s: State, deeds: seq<Deed>): State
    requires Viable(s, deeds)
    decreases |deeds|
  {
    if deeds == [] then s else Outcome(Do(s, deeds[0].th, deeds[0].a), deeds[1..])
  }

  // In every reachable state of the whole scheduler: the list counts are conserved, a tasklet is in
  // one place, and no list that has been given back is in use.
  lemma {:induction false} Reachable(s: State, deeds: seq<Deed>)
    requires Joint(s) && Viable(s, deeds)
    ensures Outcome(s, deeds).q.torn || Joint(Outcome(s, deeds))
    ensures Outcome(s, deeds).q.torn ||
            forall w: nat :: Outcome(s, deeds).w.lists(w).phase == W.Closed ==> WT.Untouched(Outcome(s, deeds).w, w)
    decreases |deeds|
  {
    if deeds == [] {
      forall w: nat | s.w.lists(w).phase == W.Closed ensures WT.Untouched(s.w, w) { WT.ClosedNow(s.w, w); }
    } else {
      var s1 := Do(s, deeds[0].th, deeds[0].a);
      JointKept(s, deeds[0].th, deeds[0].a);
      if s1.q.torn { assert deeds[1..] == []; } else { Reachable(s1, deeds[1..]); }
    }
  }

  // ---------------------------------------------------------------- quiescence

  predicate WaitsFor(x: W.Client, t: nat) {
    (x.op.WaitWant? || x.op.WaitHeld? || x.op.WaitBoth? || x.op.WaitRetry?) && x.op.t == t
  }

  // t is on no wait list and no ring, its handler is not about to be started, and nobody is in a
  // call that would change that.
  ghost predicate AtRest(s: State, t: nat) {
    && QT.Quiet(s.q, t)
    && s.w.waiters(t).wait == None
    && (forall o: nat :: RestsIn(s, o, t))
  }

  ghost predicate RestsIn(s: State, o: nat, t: nat) {
    Q.RunTarget(s.q.threads(o).run) != Some(t) && !WaitsFor(s.w.clients(o), t)
  }

  // tasklet_stop and tasklet_fini return with t at rest, unless user code is calling tasklet_run(t)
  // at that very moment.
  lemma {:induction false} StopReturnsAtRest(s: State, th: nat, b: Q.Action, t: nat)
    requires Joint(s) && Can(s, th, Queue(b)) && !Do(s, th, Queue(b)).q.torn
    requires Q.StopTarget(s.q.threads(th).stop) == Some(t) && Do(s, th, Queue(b)).q.threads(th).stop.NoStop?
    requires NotRunDirectly(s, t)
    ensures AtRest(Do(s, th, Queue(b)), t)
  {
    var s' := Do(s, th, Queue(b));
    QT.StopReturnsQuiet(s.q, th, b);
    assert LinkOk(s, th) && QI.ThreadOk(s.q, th);
    forall o: nat ensures RestsIn(s', o, t) {
      WT.NotRunByLists(s.w, t, o);
      if o != th { QT.OthersNudged(s.q, th, b, o); }
      assert LinkOk(s, o) && QI.PairsOk(s.q, th, o);
    }
  }

  // The thread begins a call that may schedule t.
  predicate Rouses(a: Act, t: nat) {
    a == Direct(t) || (a.List? && a.c.CallWait? && a.c.t == t)
  }

  // A step of the lists links only the tasklet it names, and runs only linked tasklets.
  lemma {:induction false} ListLeavesAlone(s: State, th: nat, c: W.Call, t: nat)
    requires Joint(s) && Can(s, th, List(c)) && s.w.waiters(t).wait == None
    requires !WaitsFor(s.w.clients(th), t)
    ensures var w' := W.Perform(s.w, th, c);
            w'.waiters(t).wait == None && w'.clients(th).running != Some(t)
  {
    var w' := W.Perform(s.w, th, c);
    if w'.waiters(t).wait.Some? { LinkedBy(s, th, c, t); }
    WI.PerformKeeps(s.w, th, c);
    WT.NotRunByLists(w', t, th);
  }

  lemma {:induction false} NoNewWaiter(w: W.Lists, th: nat, c: W.Call, t: nat, o: nat)
    requires WI.Sound(w) && W.Allowed(w, th, c) && !WaitsFor(w.clients(o), t) && !(c.CallWait? && c.t == t)
    ensures !WaitsFor(W.Perform(w, th, c).clients(o), t)
  {
    if o == th { assert WI.ClientOk(w, th); }
  }

  lemma {:induction false} RestsInKept(s: State, th: nat, c: W.Call, t: nat, o: nat)
    requires Joint(s) && Can(s, th, List(c)) && AtRest(s, t) && !Rouses(List(c), t)
    ensures RestsIn(Do(s, th, List(c)), o, t)
  {
    assert RestsIn(s, th, t) && RestsIn(s, o, t);
    ListLeavesAlone(s, th, c, t);
    NoNewWaiter(s.w, th, c, t, o);
  }

  lemma {:induction false} RestKeptByList(s: State, th: nat, c: W.Call, t: nat)
    requires Joint(s) && Can(s, th, List(c)) && AtRest(s, t) && !Rouses(List(c), t)
    ensures AtRest(Do(s, th, List(c)), t)
  {
    var s' := Do(s, th, List(c));
    assert RestsIn(s, th, t) && WI.ClientOk(s.w, th);
    ListLeavesAlone(s, th, c, t);
    forall q: nat ensures QT.QuietOn(s'.q, q, t) { assert QT.QuietOn(s.q, q, t); }
    forall o: nat ensures RestsIn(s', o, t) { RestsInKept(s, th, c, t, o); }
  }

  lemma {:induction false} RestKeptByQueue(s: State, th: nat, b: Q.Action, t: nat)
    requires Joint(s) && Q.Enabled(s.q, th, b) && AtRest(s, t) && (Internal(b) || FromUser(b))
    ensures forall s': State :: s'.q == Q.Exec(s.q, th, b) && s'.w == s.w ==> AtRest(s', t)
    ensures !QT.StartsHandler(s.q, QT.Step(th, b), t)
  {
    assert RestsIn(s, th, t);
    QT.QuietKept(s.q, QT.Step(th, b), t);
    forall s': State | s'.q == Q.Exec(s.q, th, b) && s'.w == s.w ensures AtRest(s', t) {
      forall o: nat ensures RestsIn(s', o, t) {
        assert RestsIn(s, o, t);
        if o != th { QT.OthersNudged(s.q, th, b, o); }
        else if b.HandlerReturn? { QT.HandlerReturnOwn(s.q, th); }
      }
    }
  }

  ghost predicate Starts(s: State, d: Deed, t: nat) {
    d.a.Queue? && QT.StartsHandler(s.q, QT.Step(d.th, d.a.a), t)
  }

  lemma {:induction false} RestKept(s: State, d: Deed, t: nat)
    requires Joint(s) && Can(s, d.th, d.a) && AtRest(s, t) && !Rouses(d.a, t)
    ensures AtRest(Do(s, d.th, d.a), t) && !Starts(s, d, t)
  {
    var s' := Do(s, d.th, d.a);
    match d.a
    case Direct(u) =>
      QT.QuietKept(s.q, QT.Step(d.th, Q.StartRun(u)), t);
      forall o: nat ensures RestsIn(s', o, t) { assert RestsIn(s, o, t); }
    case Queue(b) => RestKeptByQueue(s, d.th, b, t);
    case User(b) => RestKeptByQueue(s, d.th, b, t);
    case List(c) => RestKeptByList(s, d.th, c, t);
    case BeginStop(u, fini) =>
      BeginStopAllowed(s, d.th, u, fini);
      QT.QuietKept(s.q, QT.Step(d.th, Q.StartStop(u, fini)), t);
      forall o: nat ensures RestsIn(s', o, t) { assert RestsIn(s, o, t); }
  }

  ghost predicate NeverRoused(deeds: seq<Deed>, t: nat) {
    forall i: nat :: i < |deeds| ==> !Rouses(deeds[i].a, t)
  }

  ghost predicate NeverStarted(s: State, deeds: seq<Deed>, t: nat)
    requires Viable(s, deeds)
    decreases |deeds|
  {
    deeds == [] ||
    (!Starts(s, deeds[0], t) && NeverStarted(Do(s, deeds[0].th, deeds[0].a), deeds[1..], t))
  }

  // Quiescence, over every run of the whole scheduler: a stopped tasklet's handler is not started
  // again, and no list and no ring takes it up, until somebody calls tasklet_run(t) or makes it wait.
  lemma {:induction false} StoppedStaysStopped(s: State, deeds: seq<Deed>, t: nat)
    requires Joint(s) && Viable(s, deeds) && AtRest(s, t) && NeverRoused(deeds, t)
    ensures NeverStarted(s, deeds, t) && AtRest(Outcome(s, deeds), t)
    decreases |deeds|
  {
    if deeds != [] {
      var s1 := Do(s, deeds[0].th, deeds[0].a);
      JointKept(s, deeds[0].th, deeds[0].a);
      RestKept(s, deeds[0], t);
      if s1.q.torn { assert deeds[1..] == []; } else { StoppedStaysStopped(s1, deeds[1..], t); }
    }
  }

  // ---------------------------------------------------------------- the order of the locks

  datatype Lock = TaskletMutex(m: nat) | ListMutex(w: nat) | WaitMutex(t: nat) | QueueMutex(q: nat)

  function Rank(l: Lock): nat {
    match l
    case TaskletMutex(_) => 0
    case ListMutex(_) => 1
    case WaitMutex(_) => 2
    case QueueMutex(_) => 3
  }

  ghost predicate Holds(s: State, th: nat, l: Lock) {
    match l
    case TaskletMutex(m) => m in s.q.threads(th).held
    case ListMutex(w) => W.HoldsList(s.w.clients(th), w)
    case WaitMutex(t) => W.HoldsWait(s.w.clients(th), t)
    case QueueMutex(_) => false   // held only within a step
  }

  // The lock that the scheduler's code is about to acquire, where the thread stands inside it.
  ghost function Wants(s: State, th: nat): Option<Lock> {
    var x := s.q.threads(th);
    var y := s.w.clients(th);
    if x.run.RunLock? then Some(QueueMutex(x.run.q))
    else if x.run.RunRead? then None
    else if x.stop.StopLock? || x.stop.StopAwait? then Some(QueueMutex(x.stop.q))
    else if x.loop.Transfer? then Some(TaskletMutex(s.q.tasklets(x.loop.t).mutex))
    else if x.loop.Vetoed? || x.loop.Await? then Some(QueueMutex(x.loop.q))
    else if y.op.UpWant? || y.op.WaitWant? || y.op.SetWant? || y.op.CloseWant?
      || y.op.CloseAwait? then Some(ListMutex(y.op.w))
    else if y.op.WaitHeld? then Some(WaitMutex(y.op.t))
    else if y.op.CloseDetach? then
      if s.w.lists(y.op.w).ring == [] then None else Some(WaitMutex(s.w.lists(y.op.w).ring[0]))
    else if y.unwait.UnwaitWant? || y.unwait.UnwaitHeld? then Some(WaitMutex(y.unwait.t))
    else if y.unwait.UnwaitWantList? then Some(ListMutex(y.unwait.w))
    else None
  }

  // The locks that the scheduler's code may acquire next: besides those, a thread in user code may return
  // from a handler (line 539) or enter run_queue_run (line 501), which lock the queue.
  ghost predicate MayAcquire(s: State, th: nat, l: Lock) {
    || Wants(s, th) == Some(l)
    || (l.QueueMutex? && W.Free(s.w.clients(th))
        && if s.q.threads(th).loop.Handling? then s.q.threads(th).loop.q == l.q && Q.Enabled(s.q, th, Q.HandlerReturn)
           else Q.Enabled(s.q, th, Q.EnterLoop(l.q, true)))
  }

  // t.mutex < w.mutex < t.wait_mutex < runq.mutex: whatever a thread is about to lock ranks above
  // everything that it holds, and mutex_transfer waits holding nothing.
  lemma {:induction false} RankRespected(s: State, th: nat, held: Lock, l: Lock)
    requires Joint(s) && MayAcquire(s, th, l) && Holds(s, th, held)
    ensures Rank(held) < Rank(l)
  {
    assert QI.ThreadOk(s.q, th) && LinkOk(s, th) && WI.ClientOk(s.w, th);
  }

  // User code may wait for a tasklet mutex while it holds others, if it locks them in a fixed order.
  ghost predicate WaitsRanked(s: State, th: nat, l: Lock) {
    || MayAcquire(s, th, l)
    || (l.TaskletMutex? && Wants(s, th) == None && W.Free(s.w.clients(th))
        && forall m: nat :: m in s.q.threads(th).held ==> m < l.m)
  }

  function Below(a: Lock, b: Lock): bool {
    Rank(a) < Rank(b) || (a.TaskletMutex? && b.TaskletMutex? && a.m < b.m)
  }

  lemma {:induction false} HeldBelowWanted(s: State, th: nat, held: Lock, wanted: Lock)
    requires Joint(s) && WaitsRanked(s, th, wanted) && Holds(s, th, held)
    ensures Below(held, wanted)
  {
    if MayAcquire(s, th, wanted) {
      RankRespected(s, th, held, wanted);
    } else {
      assert WI.ClientOk(s.w, th);
    }
  }

  // c[i] waits for wanted[i], which c[i+1] holds, and the last waits for the first.
  ghost predicate Cycle(s: State, c: seq<nat>, wanted: seq<Lock>) {
    && |c| == |wanted| > 0
    && (forall i: nat :: i < |c| ==> WaitsRanked(s, c[i], wanted[i]))
    && (forall i: nat :: i + 1 < |c| ==> Holds(s, c[i + 1], wanted[i]))
    && Holds(s, c[0], wanted[|c| - 1])
  }

  lemma {:induction false} ChainAscends(s: State, c: seq<nat>, wanted: seq<Lock>, i: nat)
    requires Joint(s) && Cycle(s, c, wanted) && 0 < i < |c|
    ensures Below(wanted[0], wanted[i])
  {
    HeldBelowWanted(s, c[i], wanted[i - 1], wanted[i]);
    if i > 1 { ChainAscends(s, c, wanted, i - 1); }
  }

  // No reachable state has a cycle of threads blocked on mutexes.
  lemma {:induction false} NoLockCycle(s: State, c: seq<nat>, wanted: seq<Lock>)
    requires Joint(s)
    ensures !Cycle(s, c, wanted)
  {
    if Cycle(s, c, wanted) {
      HeldBelowWanted(s, c[0], wanted[|c| - 1], wanted[0]);
      if |c| > 1 { ChainAscends(s, c, wanted, |c| - 1); }
    }
  }
}
