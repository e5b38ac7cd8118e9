/** The wait-list half of the tasklet scheduler (src/tasklet.c) as a step system.

    The mutex of a wait list and the wait mutex of a tasklet are modelled explicitly: which of them a
    thread holds can be read off its position (HoldsList, HoldsWait).  A call of tasklet_run made
    from this code is the interval in which `running` is set; the other half of the scheduler says
    what happens in it. */
module WaitLists {
  import opened Options
  import opened Tables
  import opened RunQueues

  // Draining: wait_list_fini has stored its condition variable in `head`, and waits.
  // Closed: the memory of the wait list is given back.
  datatype Phase = Open | Draining | Closed

  datatype WaitList = WaitList(
    ring: seq<nat>,        // the tasklets linked from `head`, head first
    unwaiting: int,
    upCount: int,
    phase: Phase)

  datatype Waiter = Waiter(wait: Option<nat>, unwaiting: int)

  // Where a thread is in a call on a wait list w or a tasklet t.  `need` is None in wait_list_wait,
  // and Some(n) in wait_list_down(w, n, t);
  // `got` is the result of a down.
  datatype Op =
    | Idle
    | UpWant(w: nat, n: nat)
    | UpHeld(w: nat)
    | WaitWant(w: nat, t: nat, need: Option<nat>)
    | WaitHeld(w: nat, t: nat, need: Option<nat>)
    | WaitBoth(w: nat, t: nat, need: Option<nat>, retry: bool, got: bool)
    | WaitRetry(w: nat, t: nat, need: Option<nat>)
    | SetWant(w: nat, count: Option<int>, broadcast: bool)
    | Cast(w: nat, i: nat)
    | CloseWant(w: nat)
    | CloseRun(w: nat)
    | CloseDetach(w: nat)
    | CloseAwait(w: nat, signalled: bool)
    | Unwaiting(t: nat)

  // Where a thread is in tasklet_unwait(t).
  datatype Unwait =
    | NoUnwait
    | UnwaitWant(t: nat)
    | UnwaitCheck(t: nat)
    | UnwaitWantList(t: nat, w: nat)
    | UnwaitHeld(t: nat, w: nat)
    | UnwaitDone(t: nat, w: nat)

  datatype Client = Client(op: Op, unwait: Unwait, running: Option<nat>)

  // Threads are numbered below `n`.
  datatype Lists = Lists(n: nat, clients: Table<Client>, waiters: Table<Waiter>, lists: Table<WaitList>)

  datatype Call =
    | CallUp(w: nat, n: nat)
    | CallWait(w: nat, t: nat, need: Option<nat>)
    | CallSet(w: nat, count: Option<int>, broadcast: bool)   // wait_list_set, wait_list_broadcast
    | CallClose(w: nat)                                      // wait_list_fini
    | CallUnwait(t: nat)                                     // from tasklet_stop, tasklet_fini
    | LockList
    | LockWait
    | Unlocking
    | Retry
    | CastNext
    | CloseNext
    | Detach
    | CloseWake
    | UnwaitLock
    | UnwaitLook
    | UnwaitLockList
    | UnwaitRemove
    | EndUnwait
    | RunReturn

  // ---------------------------------------------------------------- locks

  predicate HoldsList(x: Client, w: nat) {
    || ((x.op.UpHeld? || x.op.WaitHeld? || x.op.WaitBoth? || x.op.Cast? || x.op.CloseRun? || x.op.CloseDetach?)
        && x.op.w == w)
    || ((x.unwait.UnwaitHeld? || x.unwait.UnwaitDone?) && x.unwait.w == w)
  }

  predicate HoldsWait(x: Client, t: nat) {
    || (x.op.WaitBoth? && x.op.t == t)
    || ((x.unwait.UnwaitCheck? || x.unwait.UnwaitDone?) && x.unwait.t == t)
  }

  ghost predicate ListFree(s: Lists, w: nat) {
    forall k: nat :: !HoldsList(s.clients(k), w)
  }

  ghost predicate WaitFree(s: Lists, t: nat) {
    forall k: nat :: !HoldsWait(s.clients(k), t)
  }

  // A call on w is in progress, tasklet_unwait apart.
  predicate Uses(x: Client, w: nat) {
    !x.op.Idle? && !x.op.Unwaiting? && x.op.w == w
  }

  predicate Closes(x: Client, w: nat) {
    (x.op.CloseWant? || x.op.CloseRun? || x.op.CloseDetach? || x.op.CloseAwait?) && x.op.w == w
  }

  // The tasklet on whose behalf the thread waits or stops waiting.
  function Target(x: Client): Option<nat> {
    if x.op.WaitWant? || x.op.WaitHeld? || x.op.WaitBoth? || x.op.WaitRetry? || x.op.Unwaiting? then Some(x.op.t)
    else None
  }

  predicate Free(x: Client) {
    x.op.Idle? && x.unwait.NoUnwait? && x.running == None
  }

  // ---------------------------------------------------------------- bodies

  ghost function Set(s: Lists, th: nat, x: Client): Lists {
    s.(clients := Put(s.clients, th, x))
  }

  ghost function SetList(s: Lists, w: nat, l: WaitList): Lists {
    s.(lists := Put(s.lists, w, l))
  }

  ghost function SetWaiter(s: Lists, t: nat, k: Waiter): Lists {
    s.(waiters := Put(s.waiters, t, k))
  }

  // Lines 483-487.
  ghost function DoUp(s: Lists, th: nat, w: nat, n: nat): Lists {
    var l := s.lists(w);
    Set(SetList(s, w, l.(upCount := l.upCount + n)), th,
        Client(UpHeld(w), NoUnwait, if l.ring == [] then None else Some(l.ring[0])))
  }

  // Lines 390-393, or 383-384: the ring is then walked from its head.
  ghost function DoSet(s: Lists, th: nat, w: nat, count: Option<int>, broadcast: bool): Lists {
    var l := s.lists(w);
    Set(SetList(s, w, l.(upCount := if count.Some? then count.value else l.upCount)), th,
        Client(Cast(w, if broadcast then 0 else |l.ring|), NoUnwait, None))
  }

  // Lines 258-261: an empty list is given back at once.
  ghost function DoClose(s: Lists, th: nat, w: nat): Lists {
    var l := s.lists(w);
    if l.ring == [] then Set(SetList(s, w, l.(phase := Closed)), th, Client(Idle, NoUnwait, None))
    else Set(s, th, Client(CloseRun(w), NoUnwait, None))
  }

  // wait_list_add: lines 397-413.
  ghost function Add(s: Lists, w: nat, t: nat): Lists {
    var l := s.lists(w);
    SetWaiter(SetList(s, w, l.(ring := l.ring + [t])), t, s.waiters(t).(wait := Some(w)))
  }

  // Lines 423-429 and 453-467.
  ghost function DoWait(s: Lists, th: nat, w: nat, t: nat, need: Option<nat>): Lists {
    var l := s.lists(w);
    var wait := s.waiters(t).wait;
    if wait != None && wait != Some(w) then
      Set(s, th, Client(WaitBoth(w, t, need, true, false), NoUnwait, None))
    else if need.Some? && l.upCount >= need.value then
      Set(SetList(s, w, l.(upCount := l.upCount - need.value)), th,
          Client(WaitBoth(w, t, need, false, true), NoUnwait, None))
    else if wait == Some(w) then
      Set(s, th, Client(WaitBoth(w, t, need, false, false), NoUnwait, None))
    else
      Set(Add(s, w, t), th,
          Client(WaitBoth(w, t, need, false, false), NoUnwait,
                 if l.ring == [] && l.upCount != 0 then Some(t) else None))
  }

  // Lines 270-297: detach the head; after the last one, wait if unwaiters are still about.
  ghost function DoDetach(s: Lists, th: nat, w: nat): Lists
    requires s.lists(w).ring != []
  {
    var l := s.lists(w);
    var t := l.ring[0];
    var u := l.unwaiting + s.waiters(t).unwaiting;
    var l' := l.(ring := l.ring[1..], unwaiting := u);
    var s1 := SetWaiter(s, t, Waiter(None, 0));
    if l'.ring != [] then Set(SetList(s1, w, l'), th, Client(CloseRun(w), NoUnwait, None))
    else if u != 0 then Set(SetList(s1, w, l'.(phase := Draining)), th, Client(CloseAwait(w, false), NoUnwait, None))
    else Set(SetList(s1, w, l'.(phase := Closed)), th, Client(Idle, NoUnwait, None))
  }

  function SignalCloser(x: Client, w: nat): Client {
    if x.op.CloseAwait? && x.op.w == w then x.(op := CloseAwait(w, true)) else x
  }

  // Lines 309-316.
  ghost function DoUnwaitLook(s: Lists, th: nat, t: nat): Lists {
    var k := s.waiters(t);
    if k.wait == None then Set(s, th, s.clients(th).(unwait := NoUnwait))
    else Set(SetWaiter(s, t, k.(unwaiting := k.unwaiting + 1)), th,
             s.clients(th).(unwait := UnwaitWantList(t, k.wait.value)))
  }

  // Lines 338-359.
  ghost function DoRemove(s: Lists, th: nat, t: nat, w: nat): Lists {
    var k := s.waiters(t);
    var l := s.lists(w);
    var ring := Unlinked(l.ring, t);
    var l' := l.(ring := ring, unwaiting := l.unwaiting + k.unwaiting - 1);
    Set(SetList(SetWaiter(s, t, Waiter(None, 0)), w, l'), th,
        s.clients(th).(unwait := UnwaitDone(t, w),
                       running := if l.ring != [] && l.ring[0] == t && ring != [] && l.upCount != 0
                                  then Some(ring[0]) else None))
  }

  // Lines 327-335.
  ghost function DoMissed(s: Lists, th: nat, t: nat, w: nat): Lists {
    var l := s.lists(w);
    var s1 := Set(SetList(s, w, l.(unwaiting := l.unwaiting - 1)), th, s.clients(th).(unwait := UnwaitCheck(t)));
    if l.unwaiting == 1 && l.phase == Draining then
      s1.(clients := (k: nat) => SignalCloser(s1.clients(k), w))
    else s1
  }

  // ---------------------------------------------------------------- the steps

  ghost predicate Ready(s: Lists, w: nat) {
    s.lists(w).phase == Open && forall k: nat :: !Closes(s.clients(k), w)
  }

  ghost predicate Allowed(s: Lists, th: nat, a: Call) {
    var x := s.clients(th);
    && th < s.n
    && match a
       case CallUp(w, _) => Free(x) && Ready(s, w)
       case CallWait(w, _, _) => Free(x) && Ready(s, w)
       case CallSet(w, _, _) => Free(x) && Ready(s, w)
       case CallClose(w) => Free(x) && s.lists(w).phase == Open && forall k: nat :: !Uses(s.clients(k), w)
       case CallUnwait(_) => Free(x)
       case LockList => (x.op.UpWant? || x.op.WaitWant? || x.op.SetWant? || x.op.CloseWant?) && ListFree(s, x.op.w)
       case LockWait => x.op.WaitHeld? && WaitFree(s, x.op.t)
       case Unlocking =>
         && x.running == None
         && (x.unwait.UnwaitDone? || x.op.UpHeld? || x.op.WaitBoth? || (x.op.Cast? && x.op.i >= |s.lists(x.op.w).ring|))
       case Retry => x.op.WaitRetry? && x.unwait.NoUnwait?
       case CastNext => x.op.Cast? && x.running == None && x.op.i < |s.lists(x.op.w).ring|
       case CloseNext => x.op.CloseRun? && s.lists(x.op.w).ring != []
       case Detach =>
         && x.op.CloseDetach? && x.running == None
         && s.lists(x.op.w).ring != [] && WaitFree(s, s.lists(x.op.w).ring[0])
       case CloseWake => x.op.CloseAwait? && x.op.signalled && ListFree(s, x.op.w)
       case UnwaitLock => x.unwait.UnwaitWant? && WaitFree(s, x.unwait.t)
       case UnwaitLook => x.unwait.UnwaitCheck?
       case UnwaitLockList => x.unwait.UnwaitWantList? && ListFree(s, x.unwait.w)
       case UnwaitRemove => x.unwait.UnwaitHeld? && WaitFree(s, x.unwait.t)
       case EndUnwait => x.op.Unwaiting? && x.unwait.NoUnwait?
       case RunReturn => x.running.Some?
  }

  ghost function Perform(s: Lists, th: nat, a: Call): Lists
    requires Allowed(s, th, a)
  {
    var x := s.clients(th);
    match a
    case CallUp(w, n) => Set(s, th, x.(op := UpWant(w, n)))
    case CallWait(w, t, need) => Set(s, th, x.(op := WaitWant(w, t, need)))
    case CallSet(w, count, broadcast) => Set(s, th, x.(op := SetWant(w, count, broadcast)))
    case CallClose(w) => Set(s, th, x.(op := CloseWant(w)))
    case CallUnwait(t) => Set(s, th, x.(op := Unwaiting(t), unwait := UnwaitWant(t)))
    case LockList =>
      (match x.op
       case UpWant(w, n) => DoUp(s, th, w, n)
       case WaitWant(w, t, need) => Set(s, th, x.(op := WaitHeld(w, t, need)))
       case SetWant(w, count, broadcast) => DoSet(s, th, w, count, broadcast)
       case CloseWant(w) => DoClose(s, th, w))
    case LockWait => DoWait(s, th, x.op.w, x.op.t, x.op.need)
    case Unlocking =>
      if x.unwait.UnwaitDone? then Set(s, th, x.(unwait := NoUnwait))
      else if x.op.WaitBoth? && x.op.retry then
        Set(s, th, x.(op := WaitRetry(x.op.w, x.op.t, x.op.need), unwait := UnwaitWant(x.op.t)))
      else Set(s, th, x.(op := Idle))
    case Retry => Set(s, th, x.(op := WaitWant(x.op.w, x.op.t, x.op.need)))
    case CastNext => Set(s, th, x.(op := Cast(x.op.w, x.op.i + 1), running := Some(s.lists(x.op.w).ring[x.op.i])))
    case CloseNext => Set(s, th, x.(op := CloseDetach(x.op.w), running := Some(s.lists(x.op.w).ring[0])))
    case Detach => DoDetach(s, th, x.op.w)
    case CloseWake =>
      if s.lists(x.op.w).unwaiting != 0 then Set(s, th, x.(op := CloseAwait(x.op.w, false)))
      else Set(SetList(s, x.op.w, s.lists(x.op.w).(phase := Closed)), th, x.(op := Idle))
    case UnwaitLock => Set(s, th, x.(unwait := UnwaitCheck(x.unwait.t)))
    case UnwaitLook => DoUnwaitLook(s, th, x.unwait.t)
    case UnwaitLockList => Set(s, th, x.(unwait := UnwaitHeld(x.unwait.t, x.unwait.w)))
    case UnwaitRemove =>
      if s.waiters(x.unwait.t).wait == Some(x.unwait.w) then DoRemove(s, th, x.unwait.t, x.unwait.w)
      else DoMissed(s, th, x.unwait.t, x.unwait.w)
    case EndUnwait => Set(s, th, x.(op := Idle))
    case RunReturn => Set(s, th, x.(running := None))
  }
}
