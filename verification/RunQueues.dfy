/** The run-queue half of the tasklet scheduler (src/tasklet.c) as a step system.

    Every critical section on a run queue's mutex is one step: that mutex is a leaf, nothing else
    is acquired under it, and cond_wait and mutex_transfer give it up before they block.  Reads of
    `t->runq` outside the mutex are steps of their own.  The mutexes of tasklets are modelled
    explicitly, because threads block on them and hold them across many steps.

    `mutex_transfer(q, m)` is a primitive: it gives up `q`'s mutex and blocks until it owns `m`, or
    until the owner of `m` vetoes the transfers aimed at `m`; a vetoed thread takes `q`'s mutex back. */
module RunQueues {
  import opened Options
  import opened Tables

  datatype CurrentState = Started | Stopped | Requeue

  datatype RunQueue = RunQueue(
    ring: seq<nat>,          // the tasklets linked from `head`, head first
    current: Option<nat>,
    state: CurrentState,
    thread: nat,             // the thread inside run_queue_run, or the last one that was
    stopWaiting: bool,
    workerWaiting: bool,
    waiter: nat)             // ghost: the thread that set workerWaiting

  datatype Tasklet = Tasklet(
    mutex: nat,
    runq: Option<nat>,
    live: bool,              // false once tasklet_fini is done with it
    stray: bool)             // ghost: left with a stale `runq` by a vetoed transfer

  // Where a thread is in run_queue_run.  `signalled` says that the condition variable has been
  // signalled since this thread began to wait on it.
  datatype Loop =
    | Out
    | Await(q: nat, signalled: bool)
    | Transfer(q: nat, t: nat)
    | Vetoed(q: nat, t: nat)
    | Handling(q: nat, t: nat)

  // Where a thread is in tasklet_run(t).  `unowned` records that it read a null `t->runq`.
  datatype Run = NoRun | RunRead(t: nat) | RunLock(t: nat, q: nat, unowned: bool)

  // Where a thread is in tasklet_stop(t) or tasklet_fini(t), after the tasklet_unwait.
  datatype Stop =
    | NoStop
    | StopRead(t: nat, fini: bool)
    | StopLock(t: nat, q: nat, fini: bool)
    | StopAwait(t: nat, q: nat, fini: bool, signalled: bool)

  datatype Thread = Thread(loop: Loop, run: Run, stop: Stop, held: set<nat>)

  // `torn` is set when a tasklet that is on no ring is unlinked: the C code then follows the stale
  // links left in the tasklet, and the model says nothing about what comes after.
  datatype State = State(threads: Table<Thread>, tasklets: Table<Tasklet>, queues: Table<RunQueue>, torn: bool)

  datatype Action =
    | StartRun(t: nat)                // call tasklet_run(t)
    | ReadRunq(target: nat)           // read t->runq; `target` is what thread_run_queue() returns
    | RunSection
    | StartStop(t: nat, fini: bool)   // past the tasklet_unwait of tasklet_stop or tasklet_fini
    | ReadStop
    | StopSection
    | StopWake
    | EnterLoop(q: nat, wait: bool)   // call run_queue_run
    | LoopWake
    | TransferOk
    | VetoReturn
    | HandlerReturn
    | Lock(m: nat)
    | Unlock(m: nat)
    | Veto(m: nat)                    // mutex_veto_transfer called by user code

  // ---------------------------------------------------------------- auxiliary views

  ghost predicate MutexFree(s: State, m: nat) {
    forall th: nat :: m !in s.threads(th).held
  }

  ghost predicate Services(l: Loop, q: nat) {
    !l.Out? && l.q == q
  }

  // A thread that executes user code, or code called from user code.
  predicate Active(l: Loop) {
    l.Out? || l.Handling?
  }

  function StopTarget(st: Stop): Option<nat> {
    if st.NoStop? then None else Some(st.t)
  }

  function RunTarget(r: Run): Option<nat> {
    if r.NoRun? then None else Some(r.t)
  }

  // tasklet_fini(t) has begun.
  ghost predicate Closing(s: State, t: nat) {
    exists th: nat :: !s.threads(th).stop.NoStop? && s.threads(th).stop.t == t && s.threads(th).stop.fini
  }

  // ---------------------------------------------------------------- pieces of the critical sections

  function Unlinked(ring: seq<nat>, t: nat): (r: seq<nat>) {
    if ring == [] then []
    else if ring[0] == t then ring[1..]
    else [ring[0]] + Unlinked(ring[1..], t)
  }

  // cond_broadcast(&q->cond), and cond_signal when at most one thread waits unsignalled.
  ghost function SignalThread(x: Thread, q: nat): Thread {
    if x.loop.Await? && x.loop.q == q then x.(loop := Await(q, true))
    else if x.stop.StopAwait? && x.stop.q == q then x.(stop := x.stop.(signalled := true))
    else x
  }

  ghost function Signal(s: State, q: nat): State {
    s.(threads := (th: nat) => SignalThread(s.threads(th), q))
  }

  ghost function VetoThread(s: State, x: Thread, m: nat): Thread {
    if x.loop.Transfer? && s.tasklets(x.loop.t).mutex == m then x.(loop := Vetoed(x.loop.q, x.loop.t)) else x
  }

  ghost function VetoAll(s: State, m: nat): State {
    s.(threads := (th: nat) => VetoThread(s, s.threads(th), m))
  }

  // run_queue_enqueue
  ghost function Enqueue(s: State, q: nat, t: nat): State {
    var rq := s.queues(q);
    var s1 := s.(queues := Put(s.queues, q, rq.(ring := rq.ring + [t])));
    if rq.ring == [] && rq.workerWaiting then Signal(s1, q) else s1
  }

  // Lines 518-525 with the head of the ring, or lines 569-575 when the ring is empty.
  ghost function BeginNext(s: State, th: nat, q: nat): State {
    var rq := s.queues(q);
    if rq.ring == [] then
      s.(queues := Put(s.queues, q, rq.(current := None)),
         threads := Put(s.threads, th, s.threads(th).(loop := Out)))
    else
      s.(queues := Put(s.queues, q, rq.(ring := rq.ring[1..], current := Some(rq.ring[0]), state := Started,
        thread := th)),
         threads := Put(s.threads, th, s.threads(th).(loop := Transfer(q, rq.ring[0]))))
  }

  // Lines 563-567.
  ghost function WakeStoppers(s: State, q: nat): State {
    if s.queues(q).stopWaiting
    then Signal(s.(queues := Put(s.queues, q, s.queues(q).(stopWaiting := false))), q)
    else s
  }

  // Lines 563-570: wake the stoppers, then go on with the next tasklet.
  ghost function Next(s: State, th: nat, q: nat): State {
    BeginNext(WakeStoppers(s, q), th, q)
  }

  ghost function SetRun(s: State, th: nat, r: Run): State {
    s.(threads := Put(s.threads, th, s.threads(th).(run := r)))
  }

  ghost function SetStop(s: State, th: nat, st: Stop): State {
    s.(threads := Put(s.threads, th, s.threads(th).(stop := st)))
  }

  // The end of tasklet_stop, or of tasklet_fini, which leaves the tasklet dead.
  ghost function EndStop(s: State, th: nat): State {
    var st := s.threads(th).stop;
    if st.NoStop? || !st.fini then SetStop(s, th, NoStop)
    else SetStop(s.(tasklets := Put(s.tasklets, st.t, s.tasklets(st.t).(live := false))), th, NoStop)
  }

  // ---------------------------------------------------------------- the steps

  ghost predicate Enabled(s: State, th: nat, a: Action) {
    var x := s.threads(th);
    && !s.torn
    && match a
       case StartRun(t) =>
         Active(x.loop) && x.run.NoRun? && x.stop.NoStop? && s.tasklets(t).live && !Closing(s, t)
       case ReadRunq(_) => x.run.RunRead?
       case RunSection => x.run.RunLock?
       case StartStop(t, fini) =>
         && Active(x.loop) && x.run.NoRun? && x.stop.NoStop?
         && s.tasklets(t).live && s.tasklets(t).mutex in x.held
         && (fini ==> forall o: nat :: RunTarget(s.threads(o).run) != Some(t))
       case ReadStop => x.stop.StopRead?
       case StopSection => x.stop.StopLock?
       case StopWake => x.stop.StopAwait? && x.stop.signalled
       case EnterLoop(q, _) =>
         && x.loop.Out? && x.run.NoRun? && x.stop.NoStop? && x.held == {}
         && forall o: nat :: !Services(s.threads(o).loop, q)
       case LoopWake => x.loop.Await? && x.loop.signalled
       case TransferOk => x.loop.Transfer? && MutexFree(s, s.tasklets(x.loop.t).mutex)
       case VetoReturn => x.loop.Vetoed?
       case HandlerReturn =>
         && x.loop.Handling? && x.run.NoRun? && x.stop.NoStop?
         && x.held == (if s.queues(x.loop.q).current == Some(x.loop.t) then {s.tasklets(x.loop.t).mutex} else {})
       case Lock(m) => Active(x.loop) && x.run.NoRun? && x.stop.NoStop? && MutexFree(s, m)
       case Unlock(m) =>
         && Active(x.loop) && x.run.NoRun? && x.stop.NoStop? && m in x.held
         && (x.loop.Handling? && s.queues(x.loop.q).current == Some(x.loop.t) ==> m != s.tasklets(x.loop.t).mutex)
       case Veto(m) => Active(x.loop) && x.run.NoRun? && x.stop.NoStop? && m in x.held
  }

  // Lines 224-226: a null `t->runq` is claimed for q.
  ghost function Claim(s: State, q: nat, t: nat): State {
    Enqueue(s.(tasklets := Put(s.tasklets, t, s.tasklets(t).(runq := Some(q)))), q, t)
  }

  // Lines 234-235.
  ghost function MarkRequeue(s: State, q: nat, t: nat): State {
    var rq := s.queues(q);
    if rq.current == Some(t) then s.(queues := Put(s.queues, q, rq.(state := Requeue))) else s
  }

  // Lines 222-241.
  ghost function DoRunSection(s: State, th: nat, t: nat, q: nat, unowned: bool): State {
    var r := s.tasklets(t).runq;
    if unowned && r == None then SetRun(Claim(s, q, t), th, NoRun)
    else if !unowned && r == Some(q) then SetRun(MarkRequeue(s, q, t), th, NoRun)
    else SetRun(s, th, RunRead(t))
  }

  // Lines 592-593: take t off the ring it names.
  ghost function Unlink(s: State, q: nat, t: nat): State {
    var rq := s.queues(q);
    s.(queues := Put(s.queues, q, rq.(ring := Unlinked(rq.ring, t))),
       tasklets := Put(s.tasklets, t, s.tasklets(t).(runq := None)),
       torn := t !in rq.ring)
  }

  // Lines 637-640: a stop or fini of the current tasklet from its own handler.
  ghost function OwnStop(s: State, q: nat, t: nat, fini: bool): State {
    s.(queues := Put(s.queues, q, s.queues(q).(state := Stopped, current := if fini then None else Some(t))))
  }

  // Lines 596-607: a stop or fini of the current tasklet of another thread.
  ghost function ForeignStop(s: State, th: nat, q: nat, t: nat, fini: bool): State {
    var s1 := s.(queues := Put(s.queues, q, s.queues(q).(state := Stopped, stopWaiting := true)));
    SetStop(VetoAll(s1, s.tasklets(t).mutex), th, StopAwait(t, q, fini, false))
  }

  // Lines 588-615 and 629-659.
  ghost function DoStopSection(s: State, th: nat, t: nat, q: nat, fini: bool): State {
    if s.tasklets(t).runq != Some(q) then SetStop(s, th, StopRead(t, fini))
    else if s.queues(q).current != Some(t) then EndStop(Unlink(s, q, t), th)
    else if s.queues(q).thread == th then EndStop(OwnStop(s, q, t, fini), th)
    else ForeignStop(s, th, q, t, fini)
  }

  // Lines 528-534.  A stopped tasklet is left without its `runq` being cleared.
  ghost function DoVetoReturn(s: State, th: nat, q: nat, t: nat): State {
    if s.queues(q).state == Stopped then Next(MarkStray(s, t), th, q)
    else
      s.(queues := Put(s.queues, q, s.queues(q).(state := Started)),
         threads := Put(s.threads, th, s.threads(th).(loop := Transfer(q, t))))
  }

  ghost function MarkStray(s: State, t: nat): State {
    s.(tasklets := Put(s.tasklets, t, s.tasklets(t).(stray := true)))
  }

  ghost function Release(s: State, th: nat, m: nat): State {
    s.(threads := Put(s.threads, th, s.threads(th).(held := s.threads(th).held - {m})))
  }

  // Lines 544-561, for a tasklet that was not destroyed by its handler.
  ghost function AfterHandler(s: State, th: nat, q: nat, t: nat): State {
    var s1 := if s.queues(q).state == Requeue then Enqueue(s, q, t)
              else s.(tasklets := Put(s.tasklets, t, s.tasklets(t).(runq := None)));
    Release(s1, th, s.tasklets(t).mutex)
  }

  // Lines 539-570.
  ghost function DoHandlerReturn(s: State, th: nat, q: nat, t: nat): State {
    Next(if s.queues(q).current == Some(t) then AfterHandler(s, th, q, t) else s, th, q)
  }

  ghost function Exec(s: State, th: nat, a: Action): State
    requires Enabled(s, th, a)
  {
    var x := s.threads(th);
    match a
    case StartRun(t) => SetRun(s, th, RunRead(t))
    case ReadRunq(target) =>
      var r := s.tasklets(x.run.t).runq;
      SetRun(s, th, if r == None then RunLock(x.run.t, target, true) else RunLock(x.run.t, r.value, false))
    case RunSection => DoRunSection(s, th, x.run.t, x.run.q, x.run.unowned)
    case StartStop(t, fini) => SetStop(s, th, StopRead(t, fini))
    case ReadStop =>
      var r := s.tasklets(x.stop.t).runq;
      if r == None then EndStop(s, th) else SetStop(s, th, StopLock(x.stop.t, r.value, x.stop.fini))
    case StopSection => DoStopSection(s, th, x.stop.t, x.stop.q, x.stop.fini)
    case StopWake =>
      if s.queues(x.stop.q).current == Some(x.stop.t) then SetStop(s, th, x.stop.(signalled := false))
      else EndStop(s, th)
    case EnterLoop(q, wait) =>
      if s.queues(q).ring == [] then
        if wait then
          s.(queues := Put(s.queues, q, s.queues(q).(workerWaiting := true, waiter := th)),
             threads := Put(s.threads, th, x.(loop := Await(q, false))))
        else s
      else BeginNext(s, th, q)
    case LoopWake =>
      if s.queues(x.loop.q).ring == [] then s.(threads := Put(s.threads, th, x.(loop := Await(x.loop.q, false))))
      else BeginNext(s.(queues := Put(s.queues, x.loop.q, s.queues(x.loop.q).(workerWaiting := false))), th, x.loop.q)
    case TransferOk =>
      s.(threads := Put(s.threads, th, x.(loop := Handling(x.loop.q, x.loop.t),
        held := x.held + {s.tasklets(x.loop.t).mutex})))
    case VetoReturn => DoVetoReturn(s, th, x.loop.q, x.loop.t)
    case HandlerReturn => DoHandlerReturn(s, th, x.loop.q, x.loop.t)
    case Lock(m) => s.(threads := Put(s.threads, th, x.(held := x.held + {m})))
    case Unlock(m) => Release(s, th, m)
    case Veto(m) => VetoAll(s, m)
  }
}
