/** What becomes of a call: each thread's calls are remembered as they are made, and what the scheduler does
    later on (src/tasklet.c) is measured by them and not by where the thread says that it is. */
module Histories {
  import opened Options
  import Q = RunQueues
  import QI = RunQueueInvariant
  import QT = RunQueueTheorems
  import W = WaitLists
  import WI = WaitListInvariant
  import WT = WaitListTheorems
  import opened Tables
  import opened Tasklets
  import opened TaskletTheorems

  datatype Stopping = Stopping(t: nat, fini: bool)

  // A call of run_queue_run; `took` says that the thread has been given a tasklet since, or been refused one.
  datatype Entry = Entry(q: nat, wait: bool, took: bool)

  // The last calls that a thread has made: of tasklet_run, of tasklet_stop or tasklet_fini, of
  // run_queue_run, and of wait-list code.
  datatype Past = Past(run: Option<nat>, stop: Option<Stopping>, entry: Option<Entry>, call: Option<W.Call>)

  type History = Table<Past>

  function NoPast(): History {
    (th: nat) => Past(None, None, None, None)
  }

  function Noted(p: Past, a: Act): Past {
    match a
    case Direct(t) => p.(run := Some(t))
    case BeginStop(t, fini) => p.(stop := Some(Stopping(t, fini)))
    case User(b) => if b.EnterLoop? then p.(entry := Some(Entry(b.q, b.wait, false))) else p
    case Queue(b) =>
      if (b.TransferOk? || b.VetoReturn?) && p.entry.Some? then p.(entry := Some(p.entry.value.(took := true))) else p
    case List(c) => if Opens(c) then p.(call := Some(c)) else p
  }

  function Remember(h: History, deeds: seq<Deed>): History {
    if deeds == [] then h
    else Remember(Put(h, deeds[0].th, Noted(h(deeds[0].th), deeds[0].a)), deeds[1..])
  }

  // ---------------------------------------------------------------- where a thread is, by its calls

  // A thread is in run_queue_run as it was called.
  predicate EntryOk(l: Q.Loop, e: Option<Entry>) {
    match l
    case Out => e.Some? && e.value.wait ==> e.value.took
    case Await(q, _) => e == Some(Entry(q, true, false))
    case Transfer(q, _) => e.Some? && e.value.q == q
    case Vetoed(q, _) => e.Some? && e.value.q == q
    case Handling(q, _) => e.Some? && e.value.q == q && e.value.took
  }

  predicate CallOk(op: W.Op, c: Option<W.Call>) {
    match op
    case Idle => true
    case UpWant(w, n) => c == Some(W.CallUp(w, n))
    case UpHeld(w) => c.Some? && c.value.CallUp? && c.value.w == w
    case WaitWant(w, t, need) => c == Some(W.CallWait(w, t, need))
    case WaitHeld(w, t, need) => c == Some(W.CallWait(w, t, need))
    case WaitBoth(w, t, need, _, _) => c == Some(W.CallWait(w, t, need))
    case WaitRetry(w, t, need) => c == Some(W.CallWait(w, t, need))
    case SetWant(w, count, broadcast) => c == Some(W.CallSet(w, count, broadcast))
    case Cast(w, _) => c.Some? && c.value.CallSet? && c.value.w == w
    case CloseWant(w) => c == Some(W.CallClose(w))
    case CloseRun(w) => c == Some(W.CallClose(w))
    case CloseDetach(w) => c == Some(W.CallClose(w))
    case CloseAwait(w, _) => c == Some(W.CallClose(w))
    case Unwaiting(t) => c == Some(W.CallUnwait(t))
  }

  ghost predicate PastOk(s: State, th: nat, p: Past) {
    var x, y := s.q.threads(th), s.w.clients(th);
    && (!x.run.NoRun? ==> y.running == Some(x.run.t) || (W.Free(y) && p.run == Some(x.run.t)))
    && (!x.stop.NoStop? ==> p.stop == Some(Stopping(x.stop.t, x.stop.fini)))
    && EntryOk(x.loop, p.entry) && CallOk(y.op, p.call) && RefusalStands(s.w, y)
  }

  // A tasklet that has just been refused, or made to wait, is on the list.
  ghost predicate RefusalStands(s: W.Lists, y: W.Client) {
    y.op.WaitBoth? && !y.op.retry && !y.op.got ==> y.op.t in s.lists(y.op.w).ring
  }

  ghost predicate Remembered(s: State, h: History) {
    forall th: nat :: PastOk(s, th, h(th))
  }

  // Another thread's step leaves a thread's place as it is, but for signals and vetoes.
  lemma {:induction false} LoopNudged(s: Q.State, th: nat, a: Q.Action, k: nat, e: Option<Entry>)
    requires QI.Core(s) && Q.Enabled(s, th, a) && k != th && EntryOk(s.threads(k).loop, e)
    ensures EntryOk(Q.Exec(s, th, a).threads(k).loop, e)
  {
    if a.HandlerReturn? { QT.HandlerReturnOthers(s, th, k, s.threads(th).loop.q + 1); }
  }

  lemma {:induction false} LoopMoved(s: Q.State, th: nat, b: Q.Action, p: Past)
    requires QI.Core(s) && Q.Enabled(s, th, b) && (Internal(b) || FromUser(b)) && EntryOk(s.threads(th).loop, p.entry)
    ensures EntryOk(Q.Exec(s, th, b).threads(th).loop, Noted(p, if FromUser(b) then User(b) else Queue(b)).entry)
  {
    if b.HandlerReturn? {
      ReturnLoop(s, th);
    }
  }

  lemma {:induction false} ReturnLoop(s: Q.State, th: nat)
    requires QI.Core(s) && Q.Enabled(s, th, Q.HandlerReturn)
    ensures var l := Q.Exec(s, th, Q.HandlerReturn).threads(th).loop;
            l.Out? || (l.Transfer? && l.q == s.threads(th).loop.q)
  {
  }

  lemma {:induction false} PastOthers(s: State, d: Deed, k: nat, p: Past)
    requires Joint(s) && Can(s, d.th, d.a) && k != d.th && PastOk(s, k, p)
    ensures PastOk(Do(s, d.th, d.a), k, p)
  {
    if d.a.Queue? || d.a.User? {
      QT.OthersNudged(s.q, d.th, d.a.a, k);
      LoopNudged(s.q, d.th, d.a.a, k, p.entry);
    } else if d.a.List? {
      WT.OthersMove(s.w, d.th, d.a.c, k);
      RefusalKept(s.w, d.th, d.a.c, k);
    }
  }

  lemma {:induction false} PastByQueue(s: State, th: nat, b: Q.Action, p: Past)
    requires Joint(s) && Q.Enabled(s.q, th, b) && PastOk(s, th, p)
    requires Internal(b) || (FromUser(b) && W.Free(s.w.clients(th)))
    ensures PastOk(s.(q := Q.Exec(s.q, th, b)), th, Noted(p, if FromUser(b) then User(b) else Queue(b)))
  {
    LoopMoved(s.q, th, b, p);
    assert LinkOk(s, th) && QI.ThreadOk(s.q, th);
    if b.HandlerReturn? { QT.HandlerReturnOwn(s.q, th); }
  }

  lemma {:induction false} CallMoved(s: W.Lists, th: nat, c: W.Call, call: Option<W.Call>)
    requires WI.Sound(s) && W.Allowed(s, th, c) && CallOk(s.clients(th).op, call)
    ensures CallOk(W.Perform(s, th, c).clients(th).op, if Opens(c) then Some(c) else call)
  {
    assert WI.ClientOk(s, th);
  }

  lemma {:induction false} RefusalKept(s: W.Lists, th: nat, c: W.Call, k: nat)
    requires WI.Sound(s) && W.Allowed(s, th, c) && RefusalStands(s, s.clients(k))
    ensures RefusalStands(W.Perform(s, th, c), W.Perform(s, th, c).clients(k))
  {
    assert WI.ClientOk(s, k);
    if k != th {
      WT.OthersMove(s, th, c, k);
      if s.clients(k).op.WaitBoth? { WT.HeldRingStays(s, th, c, k); }
    } else if c.LockWait? {
      WT.RefusedIsLinked(s, th);
    }
  }

  lemma {:induction false} PastByList(s: State, th: nat, c: W.Call, p: Past)
    requires Joint(s) && Can(s, th, List(c)) && PastOk(s, th, p)
    ensures PastOk(Do(s, th, List(c)), th, Noted(p, List(c)))
  {
    CallMoved(s.w, th, c, p.call);
    RefusalKept(s.w, th, c, th);
  }

  lemma {:induction false} PastOwn(s: State, d: Deed, p: Past)
    requires Joint(s) && Can(s, d.th, d.a) && PastOk(s, d.th, p)
    ensures PastOk(Do(s, d.th, d.a), d.th, Noted(p, d.a))
  {
    match d.a
    case Queue(b) => PastByQueue(s, d.th, b, p);
    case User(b) => PastByQueue(s, d.th, b, p);
    case List(c) => PastByList(s, d.th, c, p);
    case Direct(t) =>
    case BeginStop(t, fini) =>
      assert WI.ClientOk(s.w, d.th) && LinkOk(s, d.th);
  }

  // Over every run each thread is where its calls have led it.
  lemma {:induction false} WhereCalled(s: State, deeds: seq<Deed>, h: History)
    requires Joint(s) && Viable(s, deeds) && Remembered(s, h)
    ensures Outcome(s, deeds).q.torn || Remembered(Outcome(s, deeds), Remember(h, deeds))
    decreases |deeds|
  {
    if deeds != [] {
      var d := deeds[0];
      var s1, h1 := Do(s, d.th, d.a), Put(h, d.th, Noted(h(d.th), d.a));
      JointKept(s, d.th, d.a);
      if s1.q.torn {
        assert deeds[1..] == [];
      } else {
        forall k: nat ensures PastOk(s1, k, h1(k)) {
          assert PastOk(s, k, h(k));
          if k == d.th { PastOwn(s, d, h(k)); } else { PastOthers(s, d, k, h(k)); }
        }
        WhereCalled(s1, deeds[1..], h1);
      }
    }
  }

  lemma {:induction false} FromTheStart(s: State, deeds: seq<Deed>)
    requires Init(s) && Viable(s, deeds)
    ensures Outcome(s, deeds).q.torn ||
            (Joint(Outcome(s, deeds)) && Remembered(Outcome(s, deeds), Remember(NoPast(), deeds)))
  {
    InitJoint(s);
    Reachable(s, deeds);
    WhereCalled(s, deeds, NoPast());
  }

  // ---------------------------------------------------------------- run_queue_run

  // A thread that was told not to wait never blocks for want of a tasklet; and one that was told to wait is
  // out again only after a tasklet has been its.
  lemma {:induction false} WaitsAsTold(s: State, deeds: seq<Deed>, th: nat)
    requires Init(s) && Viable(s, deeds) && !Outcome(s, deeds).q.torn
    requires Remember(NoPast(), deeds)(th).entry.Some?
    ensures var l, e := Outcome(s, deeds).q.threads(th).loop, Remember(NoPast(), deeds)(th).entry.value;
            && (!e.wait ==> !l.Await?)
            && (e.wait && l.Out? ==> e.took)
            && (!l.Out? ==> l.q == e.q)
  {
    FromTheStart(s, deeds);
    assert PastOk(Outcome(s, deeds), th, Remember(NoPast(), deeds)(th));
  }

  // ---------------------------------------------------------------- tasklet_run, tasklet_stop, tasklet_fini

  // When a call tasklet_run(t) by the user returns, a start of t's handler is due, if t is no stray.
  lemma {:induction false} RunAnswered(s: State, deeds: seq<Deed>, d: Deed, t: nat)
    requires Init(s) && Viable(s, deeds) && !Outcome(s, deeds).q.torn
    requires var e := Outcome(s, deeds);
      && Can(e, d.th, d.a) && W.Free(e.w.clients(d.th)) && Remember(NoPast(), deeds)(d.th).run == Some(t)
      && !e.q.threads(d.th).run.NoRun? && Do(e, d.th, d.a).q.threads(d.th).run.NoRun?
    ensures var e := Outcome(s, deeds);
            QT.Pending(Do(e, d.th, d.a).q, t) <==> !e.q.tasklets(t).stray
  {
    var e := Outcome(s, deeds);
    FromTheStart(s, deeds);
    RunAnswer(e, d, Remember(NoPast(), deeds)(d.th), t);
  }

  lemma {:induction false} RunAnswer(s: State, d: Deed, p: Past, t: nat)
    requires Joint(s) && Can(s, d.th, d.a) && PastOk(s, d.th, p) && W.Free(s.w.clients(d.th)) && p.run == Some(t)
    requires !s.q.threads(d.th).run.NoRun? && Do(s, d.th, d.a).q.threads(d.th).run.NoRun?
    ensures QT.Pending(Do(s, d.th, d.a).q, t) <==> !s.q.tasklets(t).stray
  {
    assert LinkOk(s, d.th) && QI.ThreadOk(s.q, d.th);
    QT.RunSchedulesUnlessStray(s.q, d.th);
  }

  // When tasklet_stop(t) or tasklet_fini(t) returns, t is on no ring and no start of its handler is under
  // way; and just the one of them leaves a live tasklet.
  lemma {:induction false} StopAnswered(s: State, deeds: seq<Deed>, d: Deed, st: Stopping)
    requires Init(s) && Viable(s, deeds) && !Outcome(s, deeds).q.torn
    requires var e := Outcome(s, deeds);
      && Can(e, d.th, d.a) && Remember(NoPast(), deeds)(d.th).stop == Some(st) && !Do(e, d.th, d.a).q.torn
      && !e.q.threads(d.th).stop.NoStop? && Do(e, d.th, d.a).q.threads(d.th).stop.NoStop?
    ensures var e' := Do(Outcome(s, deeds), d.th, d.a);
            QT.Quiet(e'.q, st.t) && (e'.q.tasklets(st.t).live <==> !st.fini) && e'.w.waiters(st.t).wait == None
  {
    var e := Outcome(s, deeds);
    FromTheStart(s, deeds);
    assert PastOk(e, d.th, Remember(NoPast(), deeds)(d.th)) && LinkOk(e, d.th) && QI.ThreadOk(e.q, d.th);
    QT.StopReturnsQuiet(e.q, d.th, d.a.a);
  }

  // ---------------------------------------------------------------- semaphores

  // What a step of wait-list code makes of v units on w, going by the call that its thread has made.
  function Tally(call: Option<W.Call>, c: W.Call, got: bool, w: nat, v: int): int {
    match call
    case Some(CallUp(o, n)) => if c.LockList? && o == w then v + n else v
    case Some(CallSet(o, Some(n), _)) => if c.LockList? && o == w then n else v
    case Some(CallWait(o, _, Some(n))) => if c.LockWait? && o == w && got then v - n else v
    case _ => v
  }

  ghost function Counted(s: State, d: Deed, p: Past, w: nat, v: int): int
    requires Can(s, d.th, d.a)
  {
    if d.a.List? then Tally(p.call, d.a.c, Got(s, d), w, v) else v
  }

  lemma {:induction false} Tallied(s: W.Lists, th: nat, c: W.Call, call: Option<W.Call>, w: nat)
    requires WI.Sound(s) && W.Allowed(s, th, c) && CallOk(s.clients(th).op, call)
    ensures var s' := W.Perform(s, th, c);
            var op := s'.clients(th).op;
            s'.lists(w).upCount == Tally(call, c, op.WaitBoth? && op.got, w, s.lists(w).upCount)
  {
    assert WI.ClientOk(s, th);
  }

  // The wait_list_down that the step is part of will return true.
  ghost predicate Got(s: State, d: Deed)
    requires Can(s, d.th, d.a)
  {
    var op := Do(s, d.th, d.a).w.clients(d.th).op;
    op.WaitBoth? && op.got
  }

  lemma {:induction false} CountedRightly(s: State, d: Deed, p: Past, w: nat)
    requires Joint(s) && Can(s, d.th, d.a) && PastOk(s, d.th, p)
    ensures Do(s, d.th, d.a).w.lists(w).upCount == Counted(s, d, p, w, s.w.lists(w).upCount)
  {
    if d.a.List? { Tallied(s.w, d.th, d.a.c, p.call, w); }
  }

  ghost function Count(s: State, deeds: seq<Deed>, h: History, w: nat, v: int): int
    requires Viable(s, deeds)
    decreases |deeds|
  {
    if deeds == [] then v
    else
      var d := deeds[0];
      Count(Do(s, d.th, d.a), deeds[1..], Put(h, d.th, Noted(h(d.th), d.a)), w, Counted(s, d, h(d.th), w, v))
  }

  // Over every run the count of a semaphore is what it was set to last, and what has been upped since, less
  // what successful downs have asked for.
  lemma {:induction false} UnitsByCalls(s: State, deeds: seq<Deed>, h: History, w: nat)
    requires Joint(s) && Viable(s, deeds) && Remembered(s, h)
    ensures Outcome(s, deeds).q.torn ||
            Outcome(s, deeds).w.lists(w).upCount == Count(s, deeds, h, w, s.w.lists(w).upCount)
    decreases |deeds|
  {
    if deeds != [] {
      var d := deeds[0];
      var s1, h1 := Do(s, d.th, d.a), Put(h, d.th, Noted(h(d.th), d.a));
      JointKept(s, d.th, d.a);
      if s1.q.torn {
        assert deeds[1..] == [];
      } else {
        WhereCalled(s, [d], h);
        assert Outcome(s1, []) == s1 && [d][1..] == [];
        CountedRightly(s, d, h(d.th), w);
        UnitsByCalls(s1, deeds[1..], h1, w);
      }
    }
  }

  // A wait_list_down(w, n, t) that does not have to try again succeeds if and only if n units are there; a
  // wait or a refused down leaves t on w.
  lemma {:induction false} DownAnswered(s: State, d: Deed, p: Past, w: nat, t: nat, need: Option<nat>)
    requires Joint(s) && Can(s, d.th, d.a) && PastOk(s, d.th, p)
    requires d.a == List(W.LockWait) && p.call == Some(W.CallWait(w, t, need))
    ensures var s' := Do(s, d.th, d.a);
            var op := s'.w.clients(d.th).op;
            && op.WaitBoth? && (op.retry <==> s.w.waiters(t).wait.Some? && s.w.waiters(t).wait != Some(w))
            && (!op.retry ==> (op.got <==> need.Some? && s.w.lists(w).upCount >= need.value))
            && (!op.retry && !op.got ==> t in s'.w.lists(w).ring && s'.w.waiters(t).wait == Some(w))
  {
    WT.RefusedIsLinked(s.w, d.th);
  }

  // ---------------------------------------------------------------- the wait lists' calls return

  // wait_list_wait and wait_list_down return only when the tasklet is on the list named, or the units are
  // its; wait_list_fini when the list is closed and empty; and tasklet_unwait with the tasklet on no list.
  lemma {:induction false} ListAnswered(s: State, d: Deed, p: Past)
    requires Joint(s) && Can(s, d.th, d.a) && PastOk(s, d.th, p)
    requires !s.w.clients(d.th).op.Idle? && Do(s, d.th, d.a).w.clients(d.th).op.Idle?
    ensures var op, s' := s.w.clients(d.th).op, Do(s, d.th, d.a);
      match p.call
      case Some(CallWait(w, t, need)) =>
        && op.WaitBoth? && !op.retry
        && (op.got || (t in s.w.lists(w).ring && s.w.waiters(t).wait == Some(w)))
      case Some(CallClose(w)) => s'.w.lists(w).phase == W.Closed && s'.w.lists(w).ring == []
      case Some(CallUnwait(t)) => s'.w.waiters(t).wait == None
      case _ => true
  {
    assert WI.ClientOk(s.w, d.th);
    if d.a.List? {
      ListReturns(s.w, d.th, d.a.c, p.call);
    } else if d.a.BeginStop? {
      BeginStopAllowed(s, d.th, d.a.t, d.a.fini);
    }
  }

  lemma {:induction false} ListReturns(s: W.Lists, th: nat, c: W.Call, call: Option<W.Call>)
    requires WI.Sound(s) && W.Allowed(s, th, c) && CallOk(s.clients(th).op, call) && RefusalStands(s, s.clients(th))
    requires !c.EndUnwait? && !s.clients(th).op.Idle? && W.Perform(s, th, c).clients(th).op.Idle?
    ensures var op, s' := s.clients(th).op, W.Perform(s, th, c);
      match call
      case Some(CallWait(w, t, _)) =>
        op.WaitBoth? && !op.retry && (op.got || (t in s.lists(w).ring && s.waiters(t).wait == Some(w)))
      case Some(CallClose(w)) => s'.lists(w).phase == W.Closed && s'.lists(w).ring == []
      case Some(CallUnwait(_)) => false
      case _ => true
  {
    assert WI.ClientOk(s, th);
    if call.Some? && (call.value.CallClose? || call.value.CallWait?) { assert WI.ListOk(s, call.value.w); }
  }
}
