/** The scheduler's check for dangling tasklets (src/tasklet.c): a handler that returns after having been
    told to wait is still on a wait list, whatever the other threads, and the handlers, do. */
module DanglingCheck {
  import opened Options
  import Q = RunQueues
  import QI = RunQueueInvariant
  import QT = RunQueueTheorems
  import W = WaitLists
  import WI = WaitListInvariant
  import WT = WaitListTheorems
  import opened SemaphoreProgress
  import opened Tables
  import opened Tasklets
  import opened TaskletTheorems

  // t's handler is running, has been told to wait, and has not been told otherwise since.
  ghost predicate Lulled(s: State, t: nat) {
    s.parked(t) && Mid(s.q, t) && s.q.queues(s.q.tasklets(t).runq.value).state == Q.Started
  }

  // What line 550 asserts of it when it returns.
  ghost predicate ParkedOk(s: State, t: nat) {
    Lulled(s, t) ==> s.w.waiters(t).wait.Some?
  }

  // A thread that has run a tasklet on behalf of a list it holds: the tasklet has been told.
  ghost predicate Told(s: State, th: nat) {
    var y := s.w.clients(th);
    && (y.running.Some? && s.q.threads(th).run.NoRun? ==> !Lulled(s, y.running.value))
    && (y.op.CloseDetach? && y.running == None && s.w.lists(y.op.w).ring != [] ==>
          !Lulled(s, s.w.lists(y.op.w).ring[0]))
  }

  // ---------------------------------------------------------------- how a tasklet comes to be lulled

  // A handler that is running was running before, unless the step has just given it its mutex; and
  // only a fresh start makes the state Started.
  lemma {:induction false} MidCameFrom(q: Q.State, th: nat, b: Q.Action, t: nat)
    requires QI.Core(q) && Q.Enabled(q, th, b)
    requires Mid(Q.Exec(q, th, b), t)
    requires Q.Exec(q, th, b).queues(Q.Exec(q, th, b).tasklets(t).runq.value).state == Q.Started
    requires !(b.TransferOk? && q.threads(th).loop.t == t)
    ensures Mid(q, t) && q.queues(q.tasklets(t).runq.value).state == Q.Started
  {
    var q' := Q.Exec(q, th, b);
    var p := q'.tasklets(t).runq.value;
    var w := q'.queues(p).thread;
    if b.HandlerReturn? {
      MidCameFromReturn(q, th, t);
    } else if b.EnterLoop? || b.LoopWake? || b.VetoReturn? {
      MidCameFromEntering(q, th, b, t);
    } else if b.RunSection? {
      MidCameFromRun(q, th, t);
    } else if b.StopSection? {
      MidCameFromStop(q, th, t);
    } else {
      assert QI.ThreadOk(q, th) && QI.QueueOk(q, p);
      if w != th { QT.OthersNudged(q, th, b, w); }
    }
  }

  lemma {:induction false} MidCameFromRun(q: Q.State, th: nat, t: nat)
    requires QI.Core(q) && Q.Enabled(q, th, Q.RunSection) && Mid(Q.Exec(q, th, Q.RunSection), t)
    requires var q' := Q.Exec(q, th, Q.RunSection); q'.queues(q'.tasklets(t).runq.value).state == Q.Started
    ensures Mid(q, t) && q.queues(q.tasklets(t).runq.value).state == Q.Started
  {
    var q' := Q.Exec(q, th, Q.RunSection);
    var w := q'.queues(q'.tasklets(t).runq.value).thread;
    assert QI.ThreadOk(q, th) && QI.QueueOk(q, q'.tasklets(t).runq.value);
    if w != th { QT.OthersNudged(q, th, Q.RunSection, w); }
  }

  lemma {:induction false} MidCameFromStop(q: Q.State, th: nat, t: nat)
    requires QI.Core(q) && Q.Enabled(q, th, Q.StopSection) && Mid(Q.Exec(q, th, Q.StopSection), t)
    requires var q' := Q.Exec(q, th, Q.StopSection); q'.queues(q'.tasklets(t).runq.value).state == Q.Started
    ensures Mid(q, t) && q.queues(q.tasklets(t).runq.value).state == Q.Started
  {
    var q' := Q.Exec(q, th, Q.StopSection);
    var p := q'.tasklets(t).runq.value;
    var w := q'.queues(p).thread;
    assert QI.ThreadOk(q, th);
    assert q.tasklets(t).runq == Some(p);
    assert q.queues(p).thread == w && q.queues(p).state == Q.Started && q.queues(p).current == q'.queues(p).current;
    if w != th { QT.OthersNudged(q, th, Q.StopSection, w); }
  }

  lemma {:induction false} MidCameFromEntering(q: Q.State, th: nat, b: Q.Action, t: nat)
    requires QI.Core(q) && Q.Enabled(q, th, b) && (b.EnterLoop? || b.LoopWake? || b.VetoReturn?)
    requires Mid(Q.Exec(q, th, b), t)
    requires Q.Exec(q, th, b).queues(Q.Exec(q, th, b).tasklets(t).runq.value).state == Q.Started
    ensures Mid(q, t) && q.queues(q.tasklets(t).runq.value).state == Q.Started
  {
    var q' := Q.Exec(q, th, b);
    var p := q'.tasklets(t).runq.value;
    assert QI.ThreadOk(q, th) && QI.QueueOk(q, p);
    if b.VetoReturn? { assert QI.QueueOk(q, q.threads(th).loop.q); }
    if q'.queues(p).thread != th { QT.OthersNudged(q, th, b, q'.queues(p).thread); }
  }

  lemma {:induction false} MidCameFromReturn(q: Q.State, th: nat, t: nat)
    requires QI.Core(q) && Q.Enabled(q, th, Q.HandlerReturn)
    requires Mid(Q.Exec(q, th, Q.HandlerReturn), t)
    ensures var q' := Q.Exec(q, th, Q.HandlerReturn);
            var p := q'.tasklets(t).runq.value;
            Mid(q, t) && q.tasklets(t) == q'.tasklets(t) && q.queues(p) == q'.queues(p)
  {
    var q' := Q.Exec(q, th, Q.HandlerReturn);
    var l := q.threads(th).loop;
    var p := q'.tasklets(t).runq.value;
    var w := q'.queues(p).thread;
    assert QI.ThreadOk(q, th) && QI.QueueOk(q, l.q);
    QT.HandlerReturnOwn(q, th);
    assert w != th;
    QT.OthersNudged(q, th, Q.HandlerReturn, w);
    QI.StepKeeps(q, th, Q.HandlerReturn);
    assert QI.ThreadOk(q', w);
    assert p != l.q;
    QT.HandlerReturnOthers(q, th, w, p);
    assert QI.QueueOk(q, p);
    if q.queues(l.q).current == Some(l.t) { assert Q.AfterHandler(q, th, l.q, l.t).tasklets(t) == q.tasklets(t); }
  }

  lemma {:induction false} LulledByQueue(s: State, th: nat, b: Q.Action, t: nat, s': State)
    requires Joint(s) && Q.Enabled(s.q, th, b)
    requires s'.q == Q.Exec(s.q, th, b) && s'.w == s.w
    requires s'.parked == if b.TransferOk? then Put(s.parked, s.q.threads(th).loop.t, false) else s.parked
    ensures Lulled(s', t) ==> Lulled(s, t)
  {
    if Lulled(s', t) {
      MidCameFrom(s.q, th, b, t);
    }
  }

  // Only a refusal lulls a tasklet.
  lemma {:induction false} OnlyParksLull(s: State, d: Deed, t: nat)
    requires Joint(s) && Can(s, d.th, d.a) && !ParksTasklet(s, d, t)
    ensures Lulled(Do(s, d.th, d.a), t) ==> Lulled(s, t)
  {
    var s' := Do(s, d.th, d.a);
    match d.a
    case Direct(u) => LulledByQueue(s, d.th, Q.StartRun(u), t, s');
    case Queue(b) => LulledByQueue(s, d.th, b, t, s');
    case User(b) => LulledByQueue(s, d.th, b, t, s');
    case List(c) =>
    case BeginStop(u, fini) =>
      BeginStopAllowed(s, d.th, u, fini);
  }

  // ---------------------------------------------------------------- what every step keeps

  lemma {:induction false} ToldOthers(s: State, d: Deed, k: nat)
    requires Joint(s) && Can(s, d.th, d.a) && k != d.th && Told(s, k)
    ensures Told(Do(s, d.th, d.a), k)
  {
    var y := s.w.clients(k);
    assert WI.ClientOk(s.w, k);
    if d.a.Queue? || d.a.User? { QT.OthersNudged(s.q, d.th, d.a.a, k); }
    if d.a.List? { WT.OthersMove(s.w, d.th, d.a.c, k); }
    if y.running.Some? || y.op.CloseDetach? {
      var t := if y.running.Some? then y.running.value else s.w.lists(y.op.w).ring[0];
      assert WI.ListOk(s.w, WI.HeldList(y));
      NotParkedUnder(s, d, k, t);
      if d.a.List? { RingUnder(s.w, d.th, d.a.c, k); }
      OnlyParksLull(s, d, t);
    }
  }

  lemma {:induction false} RunTells(s: State, th: nat)
    requires Joint(s) && Can(s, th, Queue(Q.RunSection)) && Do(s, th, Queue(Q.RunSection)).q.threads(th).run.NoRun?
    ensures !Lulled(Do(s, th, Queue(Q.RunSection)), s.q.threads(th).run.t)
  {
    var r := s.q.threads(th).run;
    assert QI.ThreadOk(s.q, th) && QI.QueueOk(s.q, r.q) && QI.TaskletOk(s.q, r.t);
  }

  lemma {:induction false} ToldOwnQueue(s: State, d: Deed)
    requires Joint(s) && Can(s, d.th, d.a) && Told(s, d.th) && (d.a.Queue? || d.a.User?)
    ensures Told(Do(s, d.th, d.a), d.th)
  {
    assert LinkOk(s, d.th) && QI.ThreadOk(s.q, d.th);
    if d.a == Queue(Q.RunSection) && Do(s, d.th, d.a).q.threads(d.th).run.NoRun? {
      RunTells(s, d.th);
    }
  }

  lemma {:induction false} ToldOwnList(s: State, d: Deed)
    requires Joint(s) && Can(s, d.th, d.a) && Told(s, d.th) && d.a.List?
    ensures Told(Do(s, d.th, d.a), d.th)
  {
    assert WI.ClientOk(s.w, d.th);
  }

  lemma {:induction false} ToldOwn(s: State, d: Deed)
    requires Joint(s) && Can(s, d.th, d.a) && Told(s, d.th)
    ensures Told(Do(s, d.th, d.a), d.th)
  {
    if d.a.Queue? || d.a.User? {
      ToldOwnQueue(s, d);
    } else if d.a.List? {
      ToldOwnList(s, d);
    }
  }

  // Before wait_list_fini unlinks the head of the list it has run it.
  lemma {:induction false} DetachSpares(s: State, th: nat, t: nat)
    requires Joint(s) && Can(s, th, List(W.Detach)) && Told(s, th) && ParkedOk(s, t)
    ensures Lulled(s, t) ==> Do(s, th, List(W.Detach)).w.waiters(t) == s.w.waiters(t)
  {
    assert WI.ClientOk(s.w, th);
  }

  lemma {:induction false} ParkedKept(s: State, d: Deed, t: nat)
    requires Joint(s) && Can(s, d.th, d.a) && ParkedOk(s, t) && Told(s, d.th)
    ensures ParkedOk(Do(s, d.th, d.a), t)
  {
    if ParksTasklet(s, d, t) {
      WT.RefusedIsLinked(s.w, d.th);
    } else {
      OnlyParksLull(s, d, t);
      if d.a == List(W.Detach) {
        DetachSpares(s, d.th, t);
      }
    }
  }

  ghost predicate Watched(s: State) {
    Joint(s) && (forall th: nat :: Told(s, th)) && (forall t: nat :: ParkedOk(s, t))
  }

  // In every reachable state, whatever handlers do: a tasklet that is lulled is on a list.
  lemma {:induction false} AlwaysWatched(s: State, deeds: seq<Deed>)
    requires Watched(s) && Viable(s, deeds)
    ensures Outcome(s, deeds).q.torn || Watched(Outcome(s, deeds))
    decreases |deeds|
  {
    if deeds != [] {
      var d := deeds[0];
      var s1 := Do(s, d.th, d.a);
      JointKept(s, d.th, d.a);
      if s1.q.torn {
        assert deeds[1..] == [];
      } else {
        forall th: nat ensures Told(s1, th) {
          assert Told(s, th);
          if th == d.th { ToldOwn(s, d); } else { ToldOthers(s, d, th); }
        }
        forall t: nat ensures ParkedOk(s1, t) {
          assert Told(s, d.th) && ParkedOk(s, t);
          ParkedKept(s, d, t);
        }
        AlwaysWatched(s1, deeds[1..]);
      }
    }
  }

  // The assertion of line 550 holds for every handler that returns with its last refusal standing and
  // without having been rescheduled, even while wait_list_fini is taking its tasklet off the list.
  lemma {:induction false} DanglingCheckHolds(s: State, deeds: seq<Deed>, th: nat)
    requires Init(s) && Viable(s, deeds) && !Outcome(s, deeds).q.torn
    requires Can(Outcome(s, deeds), th, User(Q.HandlerReturn))
    requires var e := Outcome(s, deeds);
             var l := e.q.threads(th).loop;
             e.q.queues(l.q).current == Some(l.t) && e.q.queues(l.q).state == Q.Started && e.parked(l.t)
    ensures var e := Outcome(s, deeds);
            e.w.waiters(e.q.threads(th).loop.t).wait.Some?
  {
    var e := Outcome(s, deeds);
    InitJoint(s);
    AlwaysWatched(s, deeds);
    var l := e.q.threads(th).loop;
    assert QI.ThreadOk(e.q, th) && QI.QueueOk(e.q, l.q) && ParkedOk(e, l.t);
  }
}
