/** A unit of a semaphore does not go to waste while a tasklet waits for it.

    This rests on what the library asks of handlers: a handler that returns without having been
    rescheduled has just been refused by a wait list, or is not on the one in question. */
module SemaphoreProgress {
  import opened Options
  import opened Tables
  import Q = RunQueues
  import QI = RunQueueInvariant
  import QT = RunQueueTheorems
  import W = WaitLists
  import WI = WaitListInvariant
  import WT = WaitListTheorems
  import opened Tasklets
  import opened TaskletTheorems

  // t's handler is running.
  ghost predicate Mid(q: Q.State, t: nat) {
    var tk := q.tasklets(t);
    && tk.live && !tk.stray && tk.runq.Some?
    && q.queues(tk.runq.value).current == Some(t)
    && q.threads(q.queues(tk.runq.value).thread).loop.Handling?
  }

  // t will look at its wait list again: its handler is due, or is running and has not been parked.
  ghost predicate Due(s: State, t: nat) {
    s.q.tasklets(t).stray || QT.Pending(s.q, t) || (Mid(s.q, t) && !s.parked(t))
  }

  // What is asked of the handlers of tasklets on w.
  ghost predicate Behaved(s: State, d: Deed, w: nat) {
    d.a == User(Q.HandlerReturn) && s.q.threads(d.th).loop.Handling? ==>
      var l := s.q.threads(d.th).loop;
      s.q.queues(l.q).current == Some(l.t) && s.q.queues(l.q).state != Q.Requeue ==>
        s.parked(l.t) || s.w.waiters(l.t).wait != Some(w)
  }

  // The step is a refusal that parks t.
  ghost predicate ParksTasklet(s: State, d: Deed, t: nat) {
    && d.a == List(W.LockWait) && Can(s, d.th, d.a) && s.w.clients(d.th).op.t == t
    && var op := Do(s, d.th, d.a).w.clients(d.th).op;
       !op.retry && !op.got
  }

  lemma {:induction false} MidKept(q: Q.State, th: nat, b: Q.Action, t: nat)
    requires QI.Core(q) && Q.Enabled(q, th, b) && Mid(q, t)
    requires Q.StopTarget(q.threads(th).stop) != Some(t)
    requires !(b.HandlerReturn? && q.threads(th).loop.t == t)
    ensures Mid(Q.Exec(q, th, b), t)
  {
    var p := q.tasklets(t).runq.value;
    var w := q.queues(p).thread;
    assert QI.QueueOk(q, p) && QI.ThreadOk(q, th) && QI.ThreadOk(q, w);
    if w != th {
      assert QI.PairsOk(q, th, w);
      QT.OthersNudged(q, th, b, w);
      MidQueueKept(q, th, b, t);
    } else {
      MidQueueKept(q, th, b, t);
    }
  }

  lemma {:induction false} MidQueueKeptByReturn(q: Q.State, th: nat, t: nat)
    requires QI.Core(q) && Q.Enabled(q, th, Q.HandlerReturn) && Mid(q, t) && q.threads(th).loop.t != t
    ensures var p := q.tasklets(t).runq.value;
            var q' := Q.Exec(q, th, Q.HandlerReturn);
            && q'.tasklets(t) == q.tasklets(t) && q'.queues(p).current == Some(t)
            && q'.queues(p).thread == q.queues(p).thread
  {
    var p, l := q.tasklets(t).runq.value, q.threads(th).loop;
    assert QI.QueueOk(q, p) && QI.ThreadOk(q, th) && QI.ThreadOk(q, q.queues(p).thread);
    assert QI.PairsOk(q, th, q.queues(p).thread);
    QT.HandlerReturnOthers(q, th, q.queues(p).thread, p);
    assert Q.AfterHandler(q, th, l.q, l.t).tasklets(t) == q.tasklets(t);
  }

  // What another tasklet's or another queue's events leave alone.
  lemma {:induction false} MidQueueKept(q: Q.State, th: nat, b: Q.Action, t: nat)
    requires QI.Core(q) && Q.Enabled(q, th, b) && Mid(q, t)
    requires Q.StopTarget(q.threads(th).stop) != Some(t)
    requires !(b.HandlerReturn? && q.threads(th).loop.t == t)
    ensures var p := q.tasklets(t).runq.value;
            var q' := Q.Exec(q, th, b);
            && q'.tasklets(t) == q.tasklets(t) && q'.queues(p).current == Some(t)
            && q'.queues(p).thread == q.queues(p).thread
  {
    var p := q.tasklets(t).runq.value;
    assert QI.QueueOk(q, p) && QI.ThreadOk(q, th) && QI.ThreadOk(q, q.queues(p).thread);
    assert QI.PairsOk(q, th, q.queues(p).thread);
    if b.VetoReturn? { assert QI.QueueOk(q, q.threads(th).loop.q); }
    if b.HandlerReturn? { MidQueueKeptByReturn(q, th, t); }
  }

  lemma {:induction false} DueKeptByQueue(s: State, th: nat, b: Q.Action, t: nat, s': State)
    requires Joint(s) && Q.Enabled(s.q, th, b) && !Q.Exec(s.q, th, b).torn
    requires s'.q == Q.Exec(s.q, th, b)
    requires s'.parked == if b.TransferOk? then Put(s.parked, s.q.threads(th).loop.t, false) else s.parked
    requires Due(s, t) && s.w.waiters(t).wait.Some? && Behaved(s, Deed(th, User(b)), s.w.waiters(t).wait.value)
    ensures Due(s', t)
  {
    assert QI.ThreadOk(s.q, th) && QI.TaskletOk(s.q, t);
    if !s.q.threads(th).loop.Out? { assert QI.QueueOk(s.q, s.q.threads(th).loop.q); }
    if !s.q.threads(th).stop.NoStop? { LinkedNotStopped(s, t, th); }
    if !s.q.tasklets(t).stray {
      if QT.Pending(s.q, t) {
        if QT.StartsHandler(s.q, QT.Step(th, b), t) {
          assert Mid(s'.q, t) && !s'.parked(t);
        } else {
          QT.PendingKept(s.q, QT.Step(th, b), t);
        }
      } else {
        MidKept(s.q, th, b, t);
      }
    } else {
      StrayKept(s.q, th, b, t);
    }
  }

  lemma {:induction false} StrayKept(q: Q.State, th: nat, b: Q.Action, t: nat)
    requires QI.Core(q) && Q.Enabled(q, th, b) && q.tasklets(t).stray
    ensures Q.Exec(q, th, b).tasklets(t).stray
  {
    if b.HandlerReturn? {
      assert Q.AfterHandler(q, th, q.threads(th).loop.q, q.threads(th).loop.t).tasklets(t).stray;
    }
  }

  // A linked tasklet that is due stays due until it is parked.
  lemma {:induction false} DueKept(s: State, d: Deed, t: nat)
    requires Joint(s) && Can(s, d.th, d.a) && !Do(s, d.th, d.a).q.torn
    requires Due(s, t) && s.w.waiters(t).wait.Some? && Behaved(s, d, s.w.waiters(t).wait.value)
    requires !ParksTasklet(s, d, t)
    ensures Due(Do(s, d.th, d.a), t)
  {
    var s' := Do(s, d.th, d.a);
    match d.a
    case Direct(u) => DueKeptByQueue(s, d.th, Q.StartRun(u), t, s');
    case Queue(b) => DueKeptByQueue(s, d.th, b, t, s');
    case User(b) => DueKeptByQueue(s, d.th, b, t, s');
    case List(c) =>
      assert s'.parked(t) ==> s.parked(t);
    case BeginStop(u, fini) =>
      BeginStopAllowed(s, d.th, u, fini);
      DueKeptByQueue(s, d.th, Q.StartStop(u, fini), t, s');
  }

  // ---------------------------------------------------------------- calls of tasklet_run by the lists

  // When such a call has returned, its tasklet is due, for as long as the caller stays where it is.
  ghost predicate Owed(s: State, th: nat, w: nat) {
    var y := s.w.clients(th);
    WI.HoldsSomeList(y) && WI.HeldList(y) == w ==>
      && (y.running.Some? && s.q.threads(th).run.NoRun? ==> Due(s, y.running.value))
      && (y.op.CloseDetach? && y.running == None && s.w.lists(w).ring != [] ==> Due(s, s.w.lists(w).ring[0]))
  }

  // The tasklet is linked on the list whose mutex the caller holds.
  lemma {:induction false} RunningLinked(s: State, th: nat)
    requires Joint(s) && s.w.clients(th).running.Some?
    ensures var y := s.w.clients(th);
            WI.HoldsSomeList(y) && s.w.waiters(y.running.value).wait == Some(WI.HeldList(y))
  {
    var y := s.w.clients(th);
    assert WI.ClientOk(s.w, th) && WI.ListOk(s.w, WI.HeldList(y));
  }

  // Nobody parks a tasklet linked on a list that another thread holds.
  lemma {:induction false} NotParkedUnder(s: State, d: Deed, k: nat, t: nat)
    requires Joint(s) && Can(s, d.th, d.a) && k != d.th
    requires WI.HoldsSomeList(s.w.clients(k)) && s.w.waiters(t).wait == Some(WI.HeldList(s.w.clients(k)))
    ensures !ParksTasklet(s, d, t)
  {
    assert WI.ApartOk(s.w, d.th, k) && WI.ClientOk(s.w, d.th);
  }

  // Another thread's step leaves a held list's ring as it is.
  lemma {:induction false} RingUnder(w: W.Lists, th: nat, c: W.Call, k: nat)
    requires WI.Sound(w) && W.Allowed(w, th, c) && k != th && WI.HoldsSomeList(w.clients(k))
    ensures W.Perform(w, th, c).lists(WI.HeldList(w.clients(k))).ring == w.lists(WI.HeldList(w.clients(k))).ring
    ensures W.Perform(w, th, c).clients(k) == w.clients(k)
  {
    assert WI.ApartOk(w, th, k) && WI.ClientOk(w, th) && WI.ClientOk(w, k);
  }

  lemma {:induction false} DueUnder(s: State, d: Deed, k: nat, t: nat, w: nat)
    requires Joint(s) && Can(s, d.th, d.a) && !Do(s, d.th, d.a).q.torn && Behaved(s, d, w) && k != d.th && Due(s, t)
    requires WI.HoldsSomeList(s.w.clients(k)) && WI.HeldList(s.w.clients(k)) == w
    requires var y := s.w.clients(k);
      if y.running.Some? then t == y.running.value
      else y.op.CloseDetach? && s.w.lists(y.op.w).ring != [] && t == s.w.lists(y.op.w).ring[0]
    ensures Due(Do(s, d.th, d.a), t)
  {
    assert WI.ClientOk(s.w, k) && WI.ListOk(s.w, WI.HeldList(s.w.clients(k)));
    NotParkedUnder(s, d, k, t);
    DueKept(s, d, t);
  }

  lemma {:induction false} OwedOthers(s: State, d: Deed, k: nat, w: nat)
    requires Joint(s) && Can(s, d.th, d.a) && !Do(s, d.th, d.a).q.torn && Behaved(s, d, w) && k != d.th && Owed(s, k, w)
    ensures Owed(Do(s, d.th, d.a), k, w)
  {
    var s' := Do(s, d.th, d.a);
    var y := s.w.clients(k);
    assert WI.ClientOk(s.w, k);
    if d.a.Queue? || d.a.User? { QT.OthersNudged(s.q, d.th, d.a.a, k); }
    if d.a.List? { WT.OthersMove(s.w, d.th, d.a.c, k); }
    if (y.running.Some? || y.op.CloseDetach?) && WI.HeldList(y) == w {
      var t := if y.running.Some? then y.running.value else s.w.lists(y.op.w).ring[0];
      if d.a.List? { RingUnder(s.w, d.th, d.a.c, k); }
      if Due(s, t) { DueUnder(s, d, k, t, w); }
    }
  }

  lemma {:induction false} OwedOwnList(s: State, d: Deed, w: nat)
    requires Joint(s) && Can(s, d.th, d.a) && Owed(s, d.th, w) && d.a.List?
    ensures Owed(Do(s, d.th, d.a), d.th, w)
  {
    if OfUnwait(d.a.c) {
      OwedOwnUnwait(s, d, w);
    } else {
      assert LinkOk(s, d.th) && WI.ClientOk(s.w, d.th);
    }
  }

  lemma {:induction false} OwedOwnUnwait(s: State, d: Deed, w: nat)
    requires Joint(s) && Can(s, d.th, d.a) && Owed(s, d.th, w) && d.a.List? && OfUnwait(d.a.c)
    ensures Owed(Do(s, d.th, d.a), d.th, w)
  {
    assert LinkOk(s, d.th) && WI.ClientOk(s.w, d.th);
  }

  lemma {:induction false} OwedOwnRun(s: State, d: Deed, w: nat)
    requires Joint(s) && Can(s, d.th, d.a) && Owed(s, d.th, w) && d.a == Queue(Q.RunSection)
    ensures Owed(Do(s, d.th, d.a), d.th, w)
  {
    assert LinkOk(s, d.th) && QI.ThreadOk(s.q, d.th);
    if Do(s, d.th, d.a).q.threads(d.th).run.NoRun? {
      QT.RunSchedulesUnlessStray(s.q, d.th);
    }
  }

  lemma {:induction false} OwedOwn(s: State, d: Deed, w: nat)
    requires Joint(s) && Can(s, d.th, d.a) && Owed(s, d.th, w)
    ensures Owed(Do(s, d.th, d.a), d.th, w)
  {
    if d.a.List? {
      OwedOwnList(s, d, w);
    } else if d.a == Queue(Q.RunSection) {
      OwedOwnRun(s, d, w);
    } else {
      assert LinkOk(s, d.th) && WI.ClientOk(s.w, d.th) && QI.ThreadOk(s.q, d.th);
    }
  }

  // ---------------------------------------------------------------- semaphores

  // The thread is inside a call of tasklet_run(h) that a list made.
  ghost predicate Underway(s: State, th: nat, h: nat) {
    s.w.clients(th).running == Some(h) && Q.RunTarget(s.q.threads(th).run) == Some(h)
  }

  // w is used as wait_list_down(w, 1, ...) and wait_list_up(w, ...) use it, and nobody is closing it.
  ghost predicate OneByOne(s: State, w: nat) {
    forall k: nat :: PlainUse(s.w.clients(k), w)
  }

  predicate PlainUse(x: W.Client, w: nat) {
    && ((x.op.WaitWant? || x.op.WaitHeld? || x.op.WaitBoth? || x.op.WaitRetry?) && x.op.w == w ==> x.op.need == Some(1))
    && (x.op.SetWant? && x.op.w == w ==> x.op.count == None)
    && !W.Closes(x, w)
  }

  predicate PlainCall(a: Act, w: nat) {
    a.List? ==>
      && (a.c.CallWait? && a.c.w == w ==> a.c.need == Some(1))
      && (a.c.CallSet? && a.c.w == w ==> a.c.count == None)
      && (a.c.CallClose? ==> a.c.w != w)
  }

  // If there are units, the tasklet at the head will look at them.
  ghost predicate Fed(s: State, w: nat) {
    var l := s.w.lists(w);
    l.upCount > 0 && l.ring != [] ==>
      Due(s, l.ring[0]) || exists th: nat :: Underway(s, th, l.ring[0])
  }

  lemma {:induction false} PlainKept(s: State, d: Deed, w: nat)
    requires Joint(s) && Can(s, d.th, d.a) && OneByOne(s, w) && PlainCall(d.a, w)
    ensures OneByOne(Do(s, d.th, d.a), w)
  {
    var s' := Do(s, d.th, d.a);
    forall k: nat ensures PlainUse(s'.w.clients(k), w) {
      assert PlainUse(s.w.clients(k), w);
      if d.a.List? {
        if k == d.th { PlainOwn(s.w, k, d.a.c, w); } else { WT.OthersMove(s.w, d.th, d.a.c, k); }
      }
    }
  }

  lemma {:induction false} PlainOwn(s: W.Lists, th: nat, c: W.Call, w: nat)
    requires WI.Sound(s) && W.Allowed(s, th, c) && PlainUse(s.clients(th), w) && PlainCall(List(c), w)
    ensures PlainUse(W.Perform(s, th, c).clients(th), w)
  {
    assert WI.ClientOk(s, th);
  }

  // What a list step can do to a semaphore: either its head is run, or the head stays and no units
  // are added.
  lemma {:induction false} HeadKept(w: W.Lists, th: nat, c: W.Call, v: nat)
    requires WI.Sound(w) && W.Allowed(w, th, c) && PlainUse(w.clients(th), v)
    requires var l' := W.Perform(w, th, c).lists(v); l'.upCount > 0 && l'.ring != []
    ensures var w' := W.Perform(w, th, c);
            || (w.clients(th).running == None && w'.clients(th).running == Some(w'.lists(v).ring[0]))
            || (w.lists(v).ring != [] && w'.lists(v).ring[0] == w.lists(v).ring[0]
                && w.lists(v).upCount >= w'.lists(v).upCount)
  {
    assert WI.ClientOk(w, th);
    if c.UnwaitRemove? { assert WI.WaiterOk(w, w.clients(th).unwait.t); }
  }

  // A refusal on w means that w has no units.
  lemma {:induction false} RefusedWithoutUnits(s: State, d: Deed, w: nat, h: nat)
    requires Joint(s) && Can(s, d.th, d.a) && OneByOne(s, w) && ParksTasklet(s, d, h)
    requires s.w.waiters(h).wait == Some(w)
    ensures Do(s, d.th, d.a).w.lists(w).upCount <= 0
  {
    assert PlainUse(s.w.clients(d.th), w) && WI.ClientOk(s.w, d.th);
    WT.RefusedIsLinked(s.w, d.th);
  }

  lemma {:induction false} UnderwayKept(s: State, d: Deed, k: nat, h: nat)
    requires Joint(s) && Can(s, d.th, d.a) && !Do(s, d.th, d.a).q.torn && Underway(s, k, h)
    ensures Underway(Do(s, d.th, d.a), k, h) || Due(Do(s, d.th, d.a), h)
  {
    assert LinkOk(s, k) && WI.ClientOk(s.w, k) && QI.ThreadOk(s.q, k);
    if k == d.th {
      if d.a == Queue(Q.RunSection) && Do(s, d.th, d.a).q.threads(k).run.NoRun? {
        QT.RunSchedulesUnlessStray(s.q, k);
      }
    } else {
      if d.a.Queue? || d.a.User? { QT.OthersNudged(s.q, d.th, d.a.a, k); }
      if d.a.List? { WT.OthersMove(s.w, d.th, d.a.c, k); }
    }
  }

  // The head was there before, with at least as many units: what was owed to it still is.
  lemma {:induction false} FedStays(s: State, d: Deed, w: nat)
    requires Joint(s) && Can(s, d.th, d.a) && !Do(s, d.th, d.a).q.torn && Behaved(s, d, w)
    requires OneByOne(s, w) && Fed(s, w) && s.w.lists(w).ring != [] && s.w.lists(w).upCount > 0
    requires Do(s, d.th, d.a).w.lists(w).upCount > 0
    ensures var h := s.w.lists(w).ring[0]; var s' := Do(s, d.th, d.a);
            Due(s', h) || exists th: nat :: Underway(s', th, h)
  {
    var h := s.w.lists(w).ring[0];
    assert WI.ListOk(s.w, w) && h in s.w.lists(w).ring;
    if Due(s, h) {
      if ParksTasklet(s, d, h) { RefusedWithoutUnits(s, d, w, h); }
      DueKept(s, d, h);
    } else {
      var k: nat :| Underway(s, k, h);
      UnderwayKept(s, d, k, h);
    }
  }

  lemma {:induction false} FedKept(s: State, d: Deed, w: nat)
    requires Joint(s) && Can(s, d.th, d.a) && !Do(s, d.th, d.a).q.torn && Behaved(s, d, w)
    requires OneByOne(s, w) && Fed(s, w)
    ensures Fed(Do(s, d.th, d.a), w)
  {
    var s' := Do(s, d.th, d.a);
    var l' := s'.w.lists(w);
    if l'.upCount > 0 && l'.ring != [] {
      if d.a.List? {
        assert PlainUse(s.w.clients(d.th), w);
        HeadKept(s.w, d.th, d.a.c, w);
        if s.w.clients(d.th).running == None && s'.w.clients(d.th).running == Some(l'.ring[0]) {
          assert Underway(s', d.th, l'.ring[0]);
        } else {
          FedStays(s, d, w);
        }
      } else {
        FedStays(s, d, w);
      }
    }
  }

  // ---------------------------------------------------------------- over whole runs

  ghost predicate Progressing(s: State, w: nat) {
    && Joint(s) && (forall th: nat :: Owed(s, th, w))
    && OneByOne(s, w) && Fed(s, w)
  }

  ghost predicate WellUsed(s: State, deeds: seq<Deed>, w: nat)
    requires Viable(s, deeds)
    decreases |deeds|
  {
    deeds == [] ||
    (Behaved(s, deeds[0], w) && PlainCall(deeds[0].a, w)
     && WellUsed(Do(s, deeds[0].th, deeds[0].a), deeds[1..], w))
  }

  lemma {:induction false} InitProgressing(s: State, w: nat)
    requires Init(s)
    ensures Progressing(s, w)
  {
    InitJoint(s);
  }

  lemma {:induction false} ProgressingKept(s: State, deeds: seq<Deed>, w: nat)
    requires Progressing(s, w) && Viable(s, deeds) && WellUsed(s, deeds, w)
    ensures Outcome(s, deeds).q.torn || Progressing(Outcome(s, deeds), w)
    decreases |deeds|
  {
    if deeds != [] {
      var d := deeds[0];
      var s1 := Do(s, d.th, d.a);
      JointKept(s, d.th, d.a);
      if s1.q.torn {
        assert deeds[1..] == [];
      } else {
        forall th: nat ensures Owed(s1, th, w) {
          assert Owed(s, th, w);
          if th == d.th { OwedOwn(s, d, w); } else { OwedOthers(s, d, th, w); }
        }
        PlainKept(s, d, w);
        FedKept(s, d, w);
        ProgressingKept(s1, deeds[1..], w);
      }
    }
  }

  // Whoever runs a tasklet linked on w, on behalf of a list, is inside w.
  lemma {:induction false} UnderwayInside(s: State, w: nat, h: nat)
    requires Joint(s) && h in s.w.lists(w).ring
    ensures forall th: nat :: Underway(s, th, h) ==> W.HoldsList(s.w.clients(th), w)
  {
    assert WI.ListOk(s.w, w);
    forall th: nat | Underway(s, th, h) ensures W.HoldsList(s.w.clients(th), w) {
      RunningLinked(s, th);
    }
  }

  // Semaphore progress, over every run from the start: whenever nobody is inside w, if w has units
  // and tasklets wait on it, then the first of them is about to run, or is running and has not been
  // refused since it started (or is a stray, for which see StrayForever).
  lemma {:induction false} UnitsReachTheHead(s: State, deeds: seq<Deed>, w: nat)
    requires Init(s) && Viable(s, deeds) && WellUsed(s, deeds, w)
    ensures var e := Outcome(s, deeds);
            e.q.torn ||
            (W.ListFree(e.w, w) && e.w.lists(w).upCount > 0 && e.w.lists(w).ring != [] ==> Due(e, e.w.lists(w).ring[0]))
  {
    var e := Outcome(s, deeds);
    InitProgressing(s, w);
    ProgressingKept(s, deeds, w);
    if !e.q.torn && W.ListFree(e.w, w) && e.w.lists(w).upCount > 0 && e.w.lists(w).ring != [] {
      UnderwayInside(e, w, e.w.lists(w).ring[0]);
    }
  }
}
