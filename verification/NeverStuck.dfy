/** A thread inside the scheduler (src/tasklet.c) can go on, unless it waits for a mutex that another thread
    holds or for a condition variable that has not been signalled. */
module NeverStuck {
  import opened Options
  import Q = RunQueues
  import QI = RunQueueInvariant
  import QT = RunQueueTheorems
  import W = WaitLists
  import WI = WaitListInvariant
  import opened Tasklets

  // The thread executes user code, or has returned to it.
  ghost predicate InUserCode(s: State, th: nat) {
    var x := s.q.threads(th);
    W.Free(s.w.clients(th)) && Q.Active(x.loop) && x.run.NoRun? && x.stop.NoStop?
  }

  // The list whose mutex the thread is about to lock, and the tasklet whose wait mutex.
  function NextList(y: W.Client): Option<nat> {
    if y.unwait.UnwaitWantList? then Some(y.unwait.w)
    else if !y.unwait.NoUnwait? then None
    else if y.op.UpWant? || y.op.WaitWant? || y.op.SetWant? || y.op.CloseWant? || y.op.CloseAwait? then Some(y.op.w)
    else None
  }

  ghost function NextWait(s: W.Lists, y: W.Client): Option<nat> {
    if y.unwait.UnwaitWant? || y.unwait.UnwaitHeld? then Some(y.unwait.t)
    else if !y.unwait.NoUnwait? then None
    else if y.op.WaitHeld? then Some(y.op.t)
    else if y.op.CloseDetach? && s.lists(y.op.w).ring != [] then Some(s.lists(y.op.w).ring[0])
    else None
  }

  ghost predicate Unsignalled(s: State, th: nat) {
    var x, y := s.q.threads(th), s.w.clients(th);
    || (x.loop.Await? && !x.loop.signalled) || (x.stop.StopAwait? && !x.stop.signalled)
    || (y.op.CloseAwait? && !y.op.signalled)
  }

  ghost predicate HasWanted(s: State, th: nat, k: nat) {
    var x, y := s.q.threads(th), s.w.clients(th);
    || (x.loop.Transfer? && s.q.tasklets(x.loop.t).mutex in s.q.threads(k).held)
    || (NextList(y).Some? && W.HoldsList(s.w.clients(k), NextList(y).value))
    || (NextWait(s.w, y).Some? && W.HoldsWait(s.w.clients(k), NextWait(s.w, y).value))
  }

  // Another thread holds a mutex that the thread is about to lock.
  ghost predicate LockedOut(s: State, th: nat) {
    exists k: nat :: k != th && HasWanted(s, th, k)
  }

  // What it does next.
  ghost function NextStep(s: State, th: nat): Act {
    var x, y := s.q.threads(th), s.w.clients(th);
    if x.run.RunRead? then Queue(Q.ReadRunq(0))
    else if x.run.RunLock? then Queue(Q.RunSection)
    else if x.stop.StopRead? then Queue(Q.ReadStop)
    else if x.stop.StopLock? then Queue(Q.StopSection)
    else if x.stop.StopAwait? then Queue(Q.StopWake)
    else if x.loop.Await? then Queue(Q.LoopWake)
    else if x.loop.Transfer? then Queue(Q.TransferOk)
    else if x.loop.Vetoed? then Queue(Q.VetoReturn)
    else if y.running.Some? then List(W.RunReturn)
    else
      match y.unwait
      case UnwaitWant(_) => List(W.UnwaitLock)
      case UnwaitCheck(_) => List(W.UnwaitLook)
      case UnwaitWantList(_, _) => List(W.UnwaitLockList)
      case UnwaitHeld(_, _) => List(W.UnwaitRemove)
      case UnwaitDone(_, _) => List(W.Unlocking)
      case NoUnwait =>
        match y.op
        case WaitHeld(_, _, _) => List(W.LockWait)
        case WaitRetry(_, _, _) => List(W.Retry)
        case Cast(w, i) => List(if i < |s.w.lists(w).ring| then W.CastNext else W.Unlocking)
        case CloseRun(_) => List(W.CloseNext)
        case CloseDetach(_) => List(W.Detach)
        case CloseAwait(_, _) => List(W.CloseWake)
        case Unwaiting(t) => BeginStop(t, false)
        case _ => List(if y.op.UpHeld? || y.op.WaitBoth? then W.Unlocking else W.LockList)
  }

  // The thread is in a call of the run queues, or in one that it makes of them for a list.
  ghost predicate InQueues(s: State, th: nat) {
    var x := s.q.threads(th);
    !x.run.NoRun? || !x.stop.NoStop? || !Q.Active(x.loop)
  }

  lemma {:induction false} QueuesGoOn(s: State, th: nat)
    requires Joint(s) && th < s.w.n && !s.q.torn && InQueues(s, th) && !LockedOut(s, th)
    ensures Can(s, th, NextStep(s, th)) || Unsignalled(s, th)
  {
    assert LinkOk(s, th) && QI.ThreadOk(s.q, th);
    NobodyHas(s, th);
  }

  lemma {:induction false} UnwaitGoesOn(s: State, th: nat)
    requires Joint(s) && th < s.w.n && !s.q.torn && !InQueues(s, th) && !LockedOut(s, th)
    requires s.w.clients(th).running.Some? || !s.w.clients(th).unwait.NoUnwait?
    ensures Can(s, th, NextStep(s, th))
  {
    assert LinkOk(s, th) && WI.ClientOk(s.w, th);
    NobodyHas(s, th);
  }

  lemma {:induction false} ListsGoOn(s: State, th: nat)
    requires Joint(s) && th < s.w.n && !s.q.torn && !InQueues(s, th) && !LockedOut(s, th) && !InUserCode(s, th)
    requires s.w.clients(th).running == None && s.w.clients(th).unwait.NoUnwait?
    ensures Can(s, th, NextStep(s, th)) || Unsignalled(s, th)
  {
    assert LinkOk(s, th) && WI.ClientOk(s.w, th);
    NobodyHas(s, th);
  }

  // In every reachable state: what a thread does next it can do, or it waits for another thread.
  lemma {:induction false} GoesOn(s: State, th: nat)
    requires Joint(s) && th < s.w.n && !s.q.torn && !InUserCode(s, th)
    ensures Can(s, th, NextStep(s, th)) || Unsignalled(s, th) || LockedOut(s, th)
  {
    if !LockedOut(s, th) {
      if InQueues(s, th) {
        QueuesGoOn(s, th);
      } else if s.w.clients(th).running.Some? || !s.w.clients(th).unwait.NoUnwait? {
        UnwaitGoesOn(s, th);
      } else {
        ListsGoOn(s, th);
      }
    }
  }

  lemma {:induction false} NobodyHas(s: State, th: nat)
    requires Joint(s) && !LockedOut(s, th)
    ensures var y := s.w.clients(th);
            && (NextList(y).Some? ==> W.ListFree(s.w, NextList(y).value))
            && (NextWait(s.w, y).Some? ==> W.WaitFree(s.w, NextWait(s.w, y).value))
    ensures var x := s.q.threads(th);
            x.loop.Transfer? ==> Q.MutexFree(s.q, s.q.tasklets(x.loop.t).mutex)
  {
    var x, y := s.q.threads(th), s.w.clients(th);
    assert LinkOk(s, th) && WI.ClientOk(s.w, th) && QI.ThreadOk(s.q, th);
    if NextList(y).Some? {
      forall k: nat ensures !W.HoldsList(s.w.clients(k), NextList(y).value) {
        assert k == th || !HasWanted(s, th, k);
      }
    }
    if NextWait(s.w, y).Some? {
      forall k: nat ensures !W.HoldsWait(s.w.clients(k), NextWait(s.w, y).value) {
        assert k == th || !HasWanted(s, th, k);
      }
    }
    if x.loop.Transfer? {
      forall k: nat ensures s.q.tasklets(x.loop.t).mutex !in s.q.threads(k).held {
        assert k == th || !HasWanted(s, th, k);
      }
    }
  }

  // A thread that begins to wait for a condition variable, or wakes up and has to go on waiting, needs a
  // signal to wake up.
  lemma {:induction false} NoSpinning(s: State, th: nat, a: Act)
    requires Joint(s) && Can(s, th, a) && !Do(s, th, a).q.torn
    ensures var s' := Do(s, th, a);
            && (s'.q.threads(th).loop.Await? ==> Unsignalled(s', th))
            && (s'.q.threads(th).stop.StopAwait? ==> Unsignalled(s', th))
            && (s'.w.clients(th).op.CloseAwait? ==> Unsignalled(s', th))
  {
    if Do(s, th, a).q.threads(th).loop.Await? { LoopAsleep(s, th, a); }
    if Do(s, th, a).q.threads(th).stop.StopAwait? { StopAsleep(s, th, a); }
    if Do(s, th, a).w.clients(th).op.CloseAwait? { CloseAsleep(s, th, a); }
  }

  lemma {:induction false} LoopAsleep(s: State, th: nat, a: Act)
    requires Joint(s) && Can(s, th, a) && !Do(s, th, a).q.torn && Do(s, th, a).q.threads(th).loop.Await?
    ensures Unsignalled(Do(s, th, a), th)
  {
    assert LinkOk(s, th) && QI.ThreadOk(s.q, th);
    if a == User(Q.HandlerReturn) { QT.HandlerReturnOwn(s.q, th); }
  }

  lemma {:induction false} StopAsleep(s: State, th: nat, a: Act)
    requires Joint(s) && Can(s, th, a) && !Do(s, th, a).q.torn && Do(s, th, a).q.threads(th).stop.StopAwait?
    ensures Unsignalled(Do(s, th, a), th)
  {
    assert LinkOk(s, th) && QI.ThreadOk(s.q, th);
    if a == User(Q.HandlerReturn) { QT.HandlerReturnOwn(s.q, th); }
  }

  lemma {:induction false} CloseAsleep(s: State, th: nat, a: Act)
    requires Joint(s) && Can(s, th, a) && !Do(s, th, a).q.torn && Do(s, th, a).w.clients(th).op.CloseAwait?
    ensures Unsignalled(Do(s, th, a), th)
  {
    assert LinkOk(s, th) && WI.ClientOk(s.w, th);
  }
}
