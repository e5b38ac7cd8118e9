/** What every step of the run-queue protocol keeps. */
module RunQueueInvariant {
  import opened Options
  import opened Rings
  import opened RunQueues
  import opened Tables

  // t names q, and it is neither finished nor a stray.
  ghost predicate Scheduled(s: State, t: nat, q: nat) {
    s.tasklets(t).runq == Some(q) && s.tasklets(t).live && !s.tasklets(t).stray
  }

  ghost predicate InService(l: Loop, q: nat, t: nat) {
    (l.Transfer? || l.Vetoed? || l.Handling?) && l.q == q && l.t == t
  }

  lemma {:induction false} DistinctSnoc(r: seq<nat>, t: nat)
    requires Distinct(r) && t !in r
    ensures Distinct(r + [t])
  {
    forall i: nat, j: nat | i < j < |r + [t]| ensures (r + [t])[i] != (r + [t])[j] {
      assert (r + [t])[i] == r[i];
    }
  }

  lemma {:induction false} DistinctTail(r: seq<nat>)
    requires Distinct(r) && r != []
    ensures Distinct(r[1..]) && r[0] in r
    ensures forall t: nat :: t in r[1..] <==> t in r && t != r[0]
  {
    forall t: nat ensures t in r[1..] <==> t in r && t != r[0] {
      if t in r && t != r[0] {
        var i :| 0 <= i < |r| && r[i] == t;
        assert r[1..][i - 1] == t;
      }
      if t in r[1..] {
        var i :| 0 <= i < |r| - 1 && r[1..][i] == t;
        assert r[i + 1] == t && r[0] != r[i + 1];
      }
    }
  }

  lemma {:induction false} UnlinkedKeeps(r: seq<nat>, t: nat)
    requires Distinct(r)
    ensures Distinct(Unlinked(r, t))
    ensures forall u: nat :: u in Unlinked(r, t) <==> u in r && u != t
  {
    if r != [] {
      DistinctTail(r);
      if r[0] != t {
        UnlinkedKeeps(r[1..], t);
        var w := Unlinked(r[1..], t);
        forall i: nat, j: nat | i < j < |[r[0]] + w| ensures ([r[0]] + w)[i] != ([r[0]] + w)[j] {
          assert w[j - 1] in w;
        }
      }
    }
  }

  ghost predicate QueueOk(s: State, q: nat) {
    var rq := s.queues(q);
    && Distinct(rq.ring)
    && (forall t: nat :: t in rq.ring ==> Scheduled(s, t, q) && rq.current != Some(t))
    && (rq.current.Some? ==>
          Scheduled(s, rq.current.value, q) && InService(s.threads(rq.thread).loop, q, rq.current.value))
    && (rq.workerWaiting ==> s.threads(rq.waiter).loop.Await? && s.threads(rq.waiter).loop.q == q)
  }

  // A live tasklet that names a queue is on its ring or is its current, unless it is a stray.
  ghost predicate TaskletOk(s: State, t: nat) {
    var tk := s.tasklets(t);
    tk.live ==>
      && (tk.runq.Some? && !tk.stray ==>
            t in s.queues(tk.runq.value).ring || s.queues(tk.runq.value).current == Some(t))
      && (tk.stray ==> tk.runq.Some?)
  }

  ghost predicate LoopOk(s: State, th: nat) {
    var l := s.threads(th).loop;
    var rq := s.queues(if l.Out? then 0 else l.q);
    match l
    case Out => true
    case Await(_, signalled) => rq.current == None && rq.workerWaiting && (rq.ring != [] ==> signalled)
    case Handling(_, t) =>
      || (rq.current == Some(t) && rq.thread == th && s.tasklets(t).mutex in s.threads(th).held)
      || (rq.current == None && !s.tasklets(t).live)
    case _ => rq.current == Some(l.t) && rq.thread == th
  }

  // A thread blocked inside run_queue_run holds no tasklet mutex and has no call in progress.
  ghost predicate ActivityOk(x: Thread) {
    && (!Active(x.loop) ==> x.run.NoRun? && x.stop.NoStop? && x.held == {})
    && (x.run.NoRun? || x.stop.NoStop?)
  }

  ghost predicate StopOk(s: State, th: nat) {
    var st := s.threads(th).stop;
    !st.NoStop? ==>
      && s.tasklets(st.t).live && s.tasklets(st.t).mutex in s.threads(th).held
      && (st.StopAwait? ==>
            var rq := s.queues(st.q);
            if rq.current == Some(st.t) then rq.thread != th && rq.stopWaiting && !st.signalled
            else st.signalled && s.tasklets(st.t).stray)
  }

  ghost predicate ThreadOk(s: State, th: nat) {
    && LoopOk(s, th) && ActivityOk(s.threads(th)) && StopOk(s, th)
    && (!s.threads(th).run.NoRun? ==> s.tasklets(s.threads(th).run.t).live)
  }

  ghost predicate PairOk(x: Thread, y: Thread) {
    && x.held !! y.held
    && (!x.loop.Out? && !y.loop.Out? ==> x.loop.q != y.loop.q)
    && (!x.run.NoRun? && !y.stop.NoStop? && y.stop.fini ==> x.run.t != y.stop.t)
  }

  ghost predicate PairsOk(s: State, a: nat, b: nat) {
    a != b ==> PairOk(s.threads(a), s.threads(b))
  }

  ghost predicate Core(s: State) {
    && (forall th: nat :: ThreadOk(s, th))
    && (forall a: nat, b: nat :: PairsOk(s, a, b))
    && (forall q: nat :: QueueOk(s, q))
    && (forall t: nat :: TaskletOk(s, t))
  }

  ghost predicate Init(s: State) {
    && !s.torn
    && (forall th: nat :: s.threads(th) == Thread(Out, NoRun, NoStop, {}))
    && (forall t: nat :: s.tasklets(t).runq == None && s.tasklets(t).live && !s.tasklets(t).stray)
    && (forall q: nat :: s.queues(q).ring == [] && s.queues(q).current == None
                         && !s.queues(q).stopWaiting && !s.queues(q).workerWaiting)
  }

  lemma {:induction false} InitCore(s: State)
    requires Init(s)
    ensures Core(s)
  {}

  lemma {:induction false} SetRunKeeps(s: State, th: nat, r: Run)
    requires Core(s) && s.threads(th).stop.NoStop?
    requires r.NoRun? || (Active(s.threads(th).loop) && s.tasklets(r.t).live && !Closing(s, r.t))
    ensures Core(SetRun(s, th, r))
  {
    var s' := SetRun(s, th, r);
    assert ThreadOk(s, th);
    forall k: nat ensures ThreadOk(s', k) { assert ThreadOk(s, k); }
    forall i: nat, j: nat ensures PairsOk(s', i, j) { assert PairsOk(s, i, j); }
    forall q: nat ensures QueueOk(s', q) { assert QueueOk(s, q); }
    forall t: nat ensures TaskletOk(s', t) { assert TaskletOk(s, t); }
  }

  // A tasklet with a call of tasklet_run in progress is not being finished.
  lemma {:induction false} RunNotClosing(s: State, th: nat)
    requires Core(s) && !s.threads(th).run.NoRun?
    ensures s.tasklets(s.threads(th).run.t).live && !Closing(s, s.threads(th).run.t)
    ensures s.threads(th).stop.NoStop? && Active(s.threads(th).loop)
  {
    assert ThreadOk(s, th);
    forall k: nat ensures !(!s.threads(k).stop.NoStop? && s.threads(k).stop.t == s.threads(th).run.t
      && s.threads(k).stop.fini) {
      assert PairsOk(s, th, k);
    }
  }

  lemma {:induction false} ClaimThreads(s: State, q: nat, t: nat, k: nat)
    requires Core(s) && s.tasklets(t).live && s.tasklets(t).runq == None
    ensures ThreadOk(Claim(s, q, t), k)
  {
    assert ThreadOk(s, k) && ThreadOk(s, s.queues(q).waiter) && QueueOk(s, q) && TaskletOk(s, t);
  }

  lemma {:induction false} ClaimKeeps(s: State, q: nat, t: nat)
    requires Core(s) && s.tasklets(t).live && s.tasklets(t).runq == None
    ensures Core(Claim(s, q, t))
  {
    var s' := Claim(s, q, t);
    var ring := s.queues(q).ring;
    assert QueueOk(s, q) && TaskletOk(s, t) && ThreadOk(s, s.queues(q).waiter);
    DistinctSnoc(ring, t);
    forall k: nat ensures ThreadOk(s', k) { ClaimThreads(s, q, t, k); }
    forall i: nat, j: nat ensures PairsOk(s', i, j) { assert PairsOk(s, i, j); }
    forall p: nat ensures QueueOk(s', p) { assert QueueOk(s, p); }
    forall u: nat ensures TaskletOk(s', u) { assert TaskletOk(s, u); }
  }

  lemma {:induction false} MarkRequeueKeeps(s: State, q: nat, t: nat)
    requires Core(s)
    ensures Core(MarkRequeue(s, q, t))
  {
    var s' := MarkRequeue(s, q, t);
    forall k: nat ensures ThreadOk(s', k) { assert ThreadOk(s, k); }
    forall i: nat, j: nat ensures PairsOk(s', i, j) { assert PairsOk(s, i, j); }
    forall p: nat ensures QueueOk(s', p) { assert QueueOk(s, p); }
    forall u: nat ensures TaskletOk(s', u) { assert TaskletOk(s, u); }
  }

  lemma {:induction false} RunKeeps(s: State, th: nat, a: Action)
    requires Core(s) && Enabled(s, th, a) && (a.StartRun? || a.ReadRunq? || a.RunSection?)
    ensures Core(Exec(s, th, a))
  {
    if a.StartRun? {
      SetRunKeeps(s, th, RunRead(a.t));
    } else {
      RunNotClosing(s, th);
      var r := s.threads(th).run;
      if a.ReadRunq? {
        SetRunKeeps(s, th, Exec(s, th, a).threads(th).run);
      } else if r.unowned && s.tasklets(r.t).runq == None {
        ClaimKeeps(s, r.q, r.t);
        SetRunKeeps(Claim(s, r.q, r.t), th, NoRun);
      } else if !r.unowned && s.tasklets(r.t).runq == Some(r.q) {
        MarkRequeueKeeps(s, r.q, r.t);
        SetRunKeeps(MarkRequeue(s, r.q, r.t), th, NoRun);
      } else {
        SetRunKeeps(s, th, RunRead(r.t));
      }
    }
  }

  lemma {:induction false} LocksKeep(s: State, th: nat, a: Action)
    requires Core(s) && Enabled(s, th, a) && (a.Lock? || a.Unlock? || a.TransferOk?)
    ensures Core(Exec(s, th, a))
  {
    var s' := Exec(s, th, a);
    assert ThreadOk(s, th);
    forall k: nat ensures ThreadOk(s', k) { assert ThreadOk(s, k); }
    forall i: nat, j: nat ensures PairsOk(s', i, j) { assert PairsOk(s, i, j); }
    forall q: nat ensures QueueOk(s', q) { assert QueueOk(s, q); }
    forall t: nat ensures TaskletOk(s', t) { assert TaskletOk(s, t); }
  }


  lemma {:induction false} VetoKeeps(s: State, th: nat, a: Action)
    requires Core(s) && Enabled(s, th, a) && a.Veto?
    ensures Core(Exec(s, th, a))
  {
    var s' := Exec(s, th, a);
    forall k: nat ensures ThreadOk(s', k) { assert ThreadOk(s, k); }
    forall i: nat, j: nat ensures PairsOk(s', i, j) { assert PairsOk(s, i, j); }
    forall q: nat ensures QueueOk(s', q) { assert QueueOk(s, q); }
    forall t: nat ensures TaskletOk(s', t) { assert TaskletOk(s, t); }
  }

  // ---------------------------------------------------------------- moving on to the next tasklet

  // The state in which thread th, which alone services q, is about to take the head of q's ring:
  // what q's `current` says no longer matters.
  ghost predicate ReadyThread(s: State, q: nat, k: nat) {
    var x := s.threads(k);
    && LoopOk(s, k) && !Services(x.loop, q) && ActivityOk(x)
    && (!x.run.NoRun? ==> s.tasklets(x.run.t).live)
    && (if x.stop.StopAwait? && x.stop.q == q then
          && (x.stop.signalled || s.queues(q).stopWaiting)
          && s.tasklets(x.stop.t).stray && s.tasklets(x.stop.t).live && s.tasklets(x.stop.t).mutex in x.held
        else StopOk(s, k))
  }

  ghost predicate ReadyRing(s: State, q: nat) {
    && Distinct(s.queues(q).ring) && !s.queues(q).workerWaiting
    && forall t: nat :: t in s.queues(q).ring ==> Scheduled(s, t, q)
  }

  ghost predicate ReadyTasklet(s: State, q: nat, t: nat) {
    var tk := s.tasklets(t);
    tk.live ==>
      && (tk.runq.Some? && !tk.stray ==>
            t in s.queues(tk.runq.value).ring || (tk.runq != Some(q) && s.queues(tk.runq.value).current == Some(t)))
      && (tk.stray ==> tk.runq.Some?)
  }

  ghost predicate ReadyQueue(s: State, th: nat, q: nat, p: nat) {
    if p == q then ReadyRing(s, q)
    else QueueOk(s, p) && (s.queues(p).current.Some? ==> s.queues(p).thread != th)
         && (s.queues(p).workerWaiting ==> s.queues(p).waiter != th)
  }

  ghost predicate Ready(s: State, th: nat, q: nat) {
    && s.threads(th).run.NoRun? && s.threads(th).stop.NoStop? && s.threads(th).held == {}
    && (forall k: nat :: k == th || ReadyThread(s, q, k))
    && (forall a: nat, b: nat :: PairsOk(s, a, b))
    && (forall p: nat :: ReadyQueue(s, th, q, p))
    && (forall t: nat :: ReadyTasklet(s, q, t))
  }

  // Once every stopper of q has been signalled, the head of the ring is taken.
  lemma {:induction false} BeginNextKeeps(s: State, th: nat, q: nat)
    requires Ready(s, th, q)
    requires forall k: nat :: s.threads(k).stop.StopAwait? && s.threads(k).stop.q == q ==> s.threads(k).stop.signalled
    ensures Core(BeginNext(s, th, q))
  {
    var s' := BeginNext(s, th, q);
    assert ReadyQueue(s, th, q, q);
    if s.queues(q).ring != [] { DistinctTail(s.queues(q).ring); }
    forall k: nat ensures ThreadOk(s', k) { assert k == th || ReadyThread(s, q, k); }
    forall i: nat, j: nat ensures PairsOk(s', i, j) {
      assert PairsOk(s, i, j);
      assert i == th || ReadyThread(s, q, i);
      assert j == th || ReadyThread(s, q, j);
    }
    forall p: nat ensures QueueOk(s', p) { assert ReadyQueue(s, th, q, p); }
    forall t: nat ensures TaskletOk(s', t) { assert ReadyTasklet(s, q, t); }
  }

  lemma {:induction false} NextKeeps(s: State, th: nat, q: nat)
    requires Ready(s, th, q)
    ensures Core(Next(s, th, q))
  {
    var s1 := WakeStoppers(s, q);
    forall k: nat ensures k == th || ReadyThread(s1, q, k) { assert k == th || ReadyThread(s, q, k); }
    forall k: nat | s1.threads(k).stop.StopAwait? && s1.threads(k).stop.q == q ensures s1.threads(k).stop.signalled {
      assert k == th || ReadyThread(s, q, k);
    }
    forall i: nat, j: nat ensures PairsOk(s1, i, j) { assert PairsOk(s, i, j); }
    forall p: nat ensures ReadyQueue(s1, th, q, p) { assert ReadyQueue(s, th, q, p); }
    forall t: nat ensures ReadyTasklet(s1, q, t) { assert ReadyTasklet(s, q, t); }
    BeginNextKeeps(s1, th, q);
  }

  lemma {:induction false} EnterLoopKeeps(s: State, th: nat, a: Action)
    requires Core(s) && Enabled(s, th, a) && (a.EnterLoop? || a.LoopWake?)
    ensures Core(Exec(s, th, a))
  {
    var q := if a.EnterLoop? then a.q else s.threads(th).loop.q;
    assert ThreadOk(s, th) && QueueOk(s, q);
    if s.queues(q).ring == [] {
      var s' := Exec(s, th, a);
      forall k: nat ensures ThreadOk(s', k) { assert ThreadOk(s, k) && PairsOk(s, th, k); }
      forall i: nat, j: nat ensures PairsOk(s', i, j) { assert PairsOk(s, i, j); }
      forall p: nat ensures QueueOk(s', p) { assert QueueOk(s, p); }
      forall t: nat ensures TaskletOk(s', t) { assert TaskletOk(s, t); }
    } else {
      var s1 := if a.EnterLoop? then s else s.(queues := Put(s.queues, q, s.queues(q).(workerWaiting := false)));
      forall k: nat ensures k == th || ReadyThread(s1, q, k) { assert ThreadOk(s, k) && PairsOk(s, th, k); }
      forall k: nat | s.threads(k).stop.StopAwait? && s.threads(k).stop.q == q ensures s.threads(k).stop.signalled {
        assert ThreadOk(s, k);
      }
      forall i: nat, j: nat ensures PairsOk(s1, i, j) { assert PairsOk(s, i, j); }
      forall p: nat ensures ReadyQueue(s1, th, q, p) { assert QueueOk(s, p); }
      forall t: nat ensures ReadyTasklet(s1, q, t) { assert TaskletOk(s, t); }
      BeginNextKeeps(s1, th, q);
    }
  }

  // ---------------------------------------------------------------- stopping

  lemma {:induction false} EndStopKeeps(s: State, th: nat)
    requires Core(s) && !s.threads(th).stop.NoStop?
    requires s.threads(th).stop.fini ==>
               s.tasklets(s.threads(th).stop.t).runq == None || s.tasklets(s.threads(th).stop.t).stray
    ensures Core(EndStop(s, th))
  {
    var s' := EndStop(s, th);
    assert ThreadOk(s, th);
    assert TaskletOk(s, s.threads(th).stop.t);
    forall k: nat ensures ThreadOk(s', k) { assert ThreadOk(s, k); assert PairsOk(s, th, k) && PairsOk(s, k, th); }
    forall i: nat, j: nat ensures PairsOk(s', i, j) { assert PairsOk(s, i, j); }
    forall q: nat ensures QueueOk(s', q) { assert QueueOk(s, q); }
    forall t: nat ensures TaskletOk(s', t) { assert TaskletOk(s, t); }
  }

  lemma {:induction false} SetStopKeeps(s: State, th: nat, st: Stop)
    requires Core(s) && !st.NoStop? && !st.StopAwait?
    requires Active(s.threads(th).loop) && s.threads(th).run.NoRun?
    requires s.tasklets(st.t).live && s.tasklets(st.t).mutex in s.threads(th).held
    requires st.fini ==> forall o: nat :: RunTarget(s.threads(o).run) != Some(st.t)
    ensures Core(SetStop(s, th, st))
  {
    var s' := SetStop(s, th, st);
    forall k: nat ensures ThreadOk(s', k) { assert ThreadOk(s, k); }
    forall i: nat, j: nat ensures PairsOk(s', i, j) {
      assert PairsOk(s, i, j);
      assert RunTarget(s.threads(i).run) == RunTarget(s.threads(i).run);
    }
    forall q: nat ensures QueueOk(s', q) { assert QueueOk(s, q); }
    forall t: nat ensures TaskletOk(s', t) { assert TaskletOk(s, t); }
  }

  // Nobody calls tasklet_run on a tasklet that is being finished.
  lemma {:induction false} StopNotRun(s: State, th: nat)
    requires Core(s) && !s.threads(th).stop.NoStop? && s.threads(th).stop.fini
    ensures forall o: nat :: RunTarget(s.threads(o).run) != Some(s.threads(th).stop.t)
  {
    forall o: nat ensures RunTarget(s.threads(o).run) != Some(s.threads(th).stop.t) {
      assert PairsOk(s, o, th) && ThreadOk(s, th);
    }
  }

  lemma {:induction false} UnlinkKeeps(s: State, q: nat, t: nat)
    requires Core(s) && t in s.queues(q).ring
    ensures Core(Unlink(s, q, t))
  {
    var s' := Unlink(s, q, t);
    assert QueueOk(s, q);
    UnlinkedKeeps(s.queues(q).ring, t);
    forall k: nat ensures ThreadOk(s', k) { assert ThreadOk(s, k); }
    forall i: nat, j: nat ensures PairsOk(s', i, j) { assert PairsOk(s, i, j); }
    forall p: nat ensures QueueOk(s', p) { assert QueueOk(s, p); }
    forall u: nat ensures TaskletOk(s', u) { assert TaskletOk(s, u); }
  }

  lemma {:induction false} OwnStopKeeps(s: State, th: nat, q: nat, t: nat, fini: bool)
    requires Core(s) && s.threads(th).stop == StopLock(t, q, fini)
    requires s.queues(q).current == Some(t) && s.queues(q).thread == th
    ensures Core(EndStop(OwnStop(s, q, t, fini), th))
  {
    var s' := EndStop(OwnStop(s, q, t, fini), th);
    assert ThreadOk(s, th) && QueueOk(s, q);
    forall k: nat ensures ThreadOk(s', k) { assert ThreadOk(s, k); assert PairsOk(s, th, k) && PairsOk(s, k, th); }
    forall i: nat, j: nat ensures PairsOk(s', i, j) { assert PairsOk(s, i, j); }
    forall p: nat ensures QueueOk(s', p) { assert QueueOk(s, p); }
    forall u: nat ensures TaskletOk(s', u) { assert TaskletOk(s, u); }
  }

  lemma {:induction false} ForeignStopKeeps(s: State, th: nat, q: nat, t: nat, fini: bool)
    requires Core(s) && s.threads(th).stop == StopLock(t, q, fini)
    requires s.queues(q).current == Some(t) && s.queues(q).thread != th
    ensures Core(ForeignStop(s, th, q, t, fini))
  {
    var s' := ForeignStop(s, th, q, t, fini);
    assert ThreadOk(s, th) && QueueOk(s, q);
    forall k: nat ensures ThreadOk(s', k) { assert ThreadOk(s, k); assert PairsOk(s, th, k); }
    forall i: nat, j: nat ensures PairsOk(s', i, j) { assert PairsOk(s, i, j); }
    forall p: nat ensures QueueOk(s', p) { assert QueueOk(s, p); }
    forall u: nat ensures TaskletOk(s', u) { assert TaskletOk(s, u); }
  }

  lemma {:induction false} StopKeeps(s: State, th: nat, a: Action)
    requires Core(s) && Enabled(s, th, a) && (a.StartStop? || a.ReadStop? || a.StopSection? || a.StopWake?)
    ensures Exec(s, th, a).torn || Core(Exec(s, th, a))
  {
    if a.StartStop? {
      SetStopKeeps(s, th, StopRead(a.t, a.fini));
      return;
    }
    var st := s.threads(th).stop;
    assert ThreadOk(s, th);
    if st.fini { StopNotRun(s, th); }
    if a.ReadStop? {
      var r := s.tasklets(st.t).runq;
      if r == None { EndStopKeeps(s, th); } else { SetStopKeeps(s, th, StopLock(st.t, r.value, st.fini)); }
    } else if a.StopWake? {
      EndStopKeeps(s, th);
    } else if s.tasklets(st.t).runq != Some(st.q) {
      SetStopKeeps(s, th, StopRead(st.t, st.fini));
    } else if s.queues(st.q).current != Some(st.t) {
      if st.t in s.queues(st.q).ring {
        UnlinkKeeps(s, st.q, st.t);
        EndStopKeeps(Unlink(s, st.q, st.t), th);
      }
    } else if s.queues(st.q).thread == th {
      OwnStopKeeps(s, th, st.q, st.t, st.fini);
    } else {
      ForeignStopKeeps(s, th, st.q, st.t, st.fini);
    }
  }

  // ---------------------------------------------------------------- leaving a tasklet

  lemma {:induction false} StrayKeeps(s: State, th: nat, q: nat, t: nat)
    requires Core(s) && s.threads(th).loop == Vetoed(q, t)
    ensures Core(Next(MarkStray(s, t), th, q))
  {
    assert ThreadOk(s, th) && QueueOk(s, q) && PairsOk(s, th, s.queues(q).waiter);
    var s1 := MarkStray(s, t);
    forall k: nat ensures k == th || ReadyThread(s1, q, k) { assert ThreadOk(s, k) && PairsOk(s, th, k); }
    forall i: nat, j: nat ensures PairsOk(s1, i, j) { assert PairsOk(s, i, j); }
    forall p: nat ensures ReadyQueue(s1, th, q, p) { assert QueueOk(s, p); }
    forall u: nat ensures ReadyTasklet(s1, q, u) { assert TaskletOk(s, u); }
    NextKeeps(s1, th, q);
  }

  lemma {:induction false} VetoReturnKeeps(s: State, th: nat, a: Action)
    requires Core(s) && Enabled(s, th, a) && a.VetoReturn?
    ensures Core(Exec(s, th, a))
  {
    var l := s.threads(th).loop;
    var s' := Exec(s, th, a);
    assert ThreadOk(s, th) && QueueOk(s, l.q);
    if s.queues(l.q).state == Stopped {
      StrayKeeps(s, th, l.q, l.t);
    } else {
      forall k: nat ensures ThreadOk(s', k) { assert ThreadOk(s, k); }
      forall i: nat, j: nat ensures PairsOk(s', i, j) { assert PairsOk(s, i, j); }
      forall p: nat ensures QueueOk(s', p) { assert QueueOk(s, p); }
      forall t: nat ensures TaskletOk(s', t) { assert TaskletOk(s, t); }
    }
  }

  // The handler has destroyed its own tasklet.
  lemma {:induction false} DestroyedKeeps(s: State, th: nat, q: nat, t: nat)
    requires Core(s) && s.threads(th).loop == Handling(q, t) && s.queues(q).current != Some(t)
    requires s.threads(th).run.NoRun? && s.threads(th).stop.NoStop? && s.threads(th).held == {}
    ensures Core(Next(s, th, q))
  {
    assert ThreadOk(s, th) && QueueOk(s, q) && PairsOk(s, th, s.queues(q).waiter);
    var s1 := s;
    forall k: nat ensures k == th || ReadyThread(s1, q, k) { assert ThreadOk(s, k) && PairsOk(s, th, k); }
    forall i: nat, j: nat ensures PairsOk(s1, i, j) { assert PairsOk(s, i, j); }
    forall p: nat ensures ReadyQueue(s1, th, q, p) { assert QueueOk(s, p); }
    forall u: nat ensures ReadyTasklet(s1, q, u) { assert TaskletOk(s, u); }
    NextKeeps(s1, th, q);
  }

  lemma {:induction false} ReturnedKeeps(s: State, th: nat, q: nat, t: nat)
    requires Core(s) && s.threads(th).loop == Handling(q, t) && s.queues(q).current == Some(t)
    requires s.threads(th).run.NoRun? && s.threads(th).stop.NoStop?
    requires s.threads(th).held == {s.tasklets(t).mutex}
    ensures Core(Next(AfterHandler(s, th, q, t), th, q))
  {
    assert ThreadOk(s, th) && QueueOk(s, q) && PairsOk(s, th, s.queues(q).waiter);
    DistinctSnoc(s.queues(q).ring, t);
    var s1 := AfterHandler(s, th, q, t);
    assert s1.threads(th).held == {};
    forall k: nat ensures k == th || ReadyThread(s1, q, k) { assert ThreadOk(s, k) && PairsOk(s, th, k); }
    forall i: nat, j: nat ensures PairsOk(s1, i, j) { assert PairsOk(s, i, j); }
    forall p: nat ensures ReadyQueue(s1, th, q, p) { assert QueueOk(s, p); }
    forall u: nat ensures ReadyTasklet(s1, q, u) { assert TaskletOk(s, u); }
    NextKeeps(s1, th, q);
  }

  lemma {:induction false} StepKeeps(s: State, th: nat, a: Action)
    requires Core(s) && Enabled(s, th, a)
    ensures Exec(s, th, a).torn || Core(Exec(s, th, a))
  {
    match a
    case StartRun(_) => RunKeeps(s, th, a);
    case ReadRunq(_) => RunKeeps(s, th, a);
    case RunSection => RunKeeps(s, th, a);
    case StartStop(_, _) => StopKeeps(s, th, a);
    case ReadStop => StopKeeps(s, th, a);
    case StopSection => StopKeeps(s, th, a);
    case StopWake => StopKeeps(s, th, a);
    case EnterLoop(_, _) => EnterLoopKeeps(s, th, a);
    case LoopWake => EnterLoopKeeps(s, th, a);
    case TransferOk => LocksKeep(s, th, a);
    case VetoReturn => VetoReturnKeeps(s, th, a);
    case HandlerReturn =>
      var l := s.threads(th).loop;
      if s.queues(l.q).current == Some(l.t) {
        ReturnedKeeps(s, th, l.q, l.t);
      } else {
        DestroyedKeeps(s, th, l.q, l.t);
      }
    case Lock(_) => LocksKeep(s, th, a);
    case Unlock(_) => LocksKeep(s, th, a);
    case Veto(_) => VetoKeeps(s, th, a);
  }
}
