/** The loop of the poll thread (src/poll_common.c), with the calls that others make while it sleeps. */
module PollThread {
  import opened PollEvents
  import opened PollSet
  import opened PollWaker
  import opened Rings
  import opened Timers

  // What others may do while the thread sleeps.
  datatype Call =
    | CreateFd(fd: nat)
    | Interest(w: WatchedFd, events: set<Event>)
    | DestroyFd(w: WatchedFd)
    | InitTimer
    | SetTimer(t: Timer, earliest: nat, latest: nat)
    | CancelTimer(t: Timer)
    | WaitTimer(t: Timer, tasklet: nat)
    | FiniTimer(t: Timer)

  // Calls are made on the entries and timers that somebody holds.
  predicate Allowed(c: Call, fds: set<WatchedFd>, timers: set<Timer>) {
    match c
    case Interest(w, _) => w in fds
    case DestroyFd(w) => w in fds
    case SetTimer(t, earliest, latest) => t in timers && earliest < latest
    case CancelTimer(t) => t in timers
    case WaitTimer(t, _) => t in timers
    case FiniTimer(t) => t in timers
    case _ => true
  }

  // An entry that has been destroyed is not held, nor is a timer that has been finalised.
  ghost predicate Held(fds: set<WatchedFd>, timers: set<Timer>, p: Poll, q: TimerQueue)
    reads p, q, fds
  {
    fds <= p.live && (forall w :: w in fds ==> w.fd >= 0) && timers <= q.all
  }

  // The thread is to be told of it.
  predicate Notable(c: Call) {
    c.Interest? || c.SetTimer? || c.CancelTimer? || c.FiniTimer?
  }

  // The two halves share their waker, and nothing else.
  ghost predicate Valid(p: Poll, q: TimerQueue)
    reads p, p.waker, p.live, p.ring, p.pollfds, p.watchedFds, q, q.waker, q.all, q.ring
  {
    p.waker == q.waker && p.Valid() && q.Valid()
  }

  // What an entry with a slot is taken to have to report: what this poll() said, or what stood there.
  datatype Slot = Slot(index: nat, standing: set<SysEvent>)

  function Heard(s: Slot, result: int, revents: nat -> set<SysEvent>): set<SysEvent> {
    if result >= 0 then revents(s.index) else s.standing
  }

  ghost function Slots(p: Poll): map<WatchedFd, Slot>
    requires p.Slots()
    reads p, p.live, p.pollfds, p.watchedFds
  {
    map w | w in p.live && w.slot >= 1 :: Slot(w.slot, p.pollfds[w.slot].revents)
  }

  method MakeInterest(w: WatchedFd, events: set<Event>, p: Poll, q: TimerQueue)
    requires Valid(p, q) && p.waker.asleep && w in p.live && w.fd >= 0
    modifies p`updates, p`ring, p.live`next, p.live`prev, w`interest, p.waker`threadWoken, p.waker`pipe
    ensures Valid(p, q) && p.waker.threadWoken
  {
    p.SetInterest(w, events);
  }

  method MakeDestroy(w: WatchedFd, p: Poll, q: TimerQueue)
    requires Valid(p, q) && p.waker.asleep && w in p.live && w.fd >= 0
    modifies p`updates, p`ring, p`live, p.live`next, p.live`prev, w`fd, w`interest, p.waker`threadWoken, p.waker`pipe
    ensures Valid(p, q) && (old(p.waker.threadWoken) ==> p.waker.threadWoken)
    ensures old(p.live) - {w} <= p.live <= old(p.live)
  {
    p.Destroy(w);
  }

  method MakeSet(t: Timer, earliest: nat, latest: nat, p: Poll, q: TimerQueue)
    requires Valid(p, q) && p.waker.asleep && t in q.all && earliest < latest
    modifies q`timers, q`ring, q.all`next, q.all`prev, t, p.waker`threadWoken, p.waker`pipe
    ensures Valid(p, q) && p.waker.threadWoken
    ensures forall u :: u in q.all && u != t ==> (u in q.ring <==> u in old(q.ring))
  {
    q.Set(t, earliest, latest);
  }

  method MakeCancel(t: Timer, p: Poll, q: TimerQueue)
    requires Valid(p, q) && p.waker.asleep && t in q.all
    modifies q`timers, q`ring, q.all`next, q.all`prev, t`fired, p.waker`threadWoken, p.waker`pipe
    ensures Valid(p, q) && p.waker.threadWoken
    ensures forall u :: u in q.all && u != t ==> (u in q.ring <==> u in old(q.ring))
  {
    RemovedMembers(q.ring, t);
    q.Cancel(t);
  }

  method MakeFini(t: Timer, p: Poll, q: TimerQueue)
    requires Valid(p, q) && p.waker.asleep && t in q.all
    modifies q`timers, q`ring, q`all, q.all`next, q.all`prev, t`asleep, p.waker`threadWoken, p.waker`pipe
    ensures Valid(p, q) && p.waker.threadWoken && q.all == old(q.all) - {t}
    ensures forall u :: u in q.all ==> (u in q.ring <==> u in old(q.ring))
  {
    RemovedMembers(q.ring, t);
    q.Fini(t);
  }

  method MakeWait(t: Timer, tasklet: nat, p: Poll, q: TimerQueue)
    requires Valid(p, q) && t in q.all
    modifies t`asleep
    ensures Valid(p, q)
  {
    var fired := q.Wait(t, tasklet);
  }

  method MakeCreate(fd: nat, p: Poll, q: TimerQueue) returns (w: WatchedFd)
    requires Valid(p, q)
    modifies p`live
    ensures Valid(p, q) && fresh(w) && p.live == old(p.live) + {w} && w.fd >= 0
  {
    w := p.Create(fd);
  }

  method MakeInit(p: Poll, q: TimerQueue) returns (t: Timer)
    requires Valid(p, q)
    modifies q`all
    ensures Valid(p, q) && fresh(t) && q.all == old(q.all) + {t}
  {
    t := q.Init();
  }

  // Entries and timers that nobody holds are left as they are.
  twostate predicate Alone(fds: set<WatchedFd>, timers: set<Timer>, p: Poll, q: TimerQueue)
    reads p, p.live, q, q.all
  {
    && (forall w :: w in old(p.live) && w !in fds ==> w in p.live && w.interest == old(w.interest) && w.fd == old(w.fd))
    && (forall t :: t in old(q.all) && t !in timers ==>
          && t in q.all && t.earliest == old(t.earliest)
          && t.fired == old(t.fired) && (t in q.ring <==> t in old(q.ring)))
  }

  // A call made while the thread sleeps keeps both halves valid; and it wakes the thread, if anything
  // that the thread is to know has changed.
  method Make(c: Call, fds: set<WatchedFd>, timers: set<Timer>, p: Poll, q: TimerQueue)
    returns (fds': set<WatchedFd>, timers': set<Timer>)
    requires Valid(p, q) && p.waker.asleep && Held(fds, timers, p, q) && Allowed(c, fds, timers)
    modifies p`updates, p`ring, p`live, p.live`next, p.live`prev, p.live`interest, p.live`fd,
             q`timers, q`ring, q`all, q.all, p.waker`threadWoken, p.waker`pipe
    ensures Valid(p, q) && (old(p.waker.threadWoken) || Notable(c) ==> p.waker.threadWoken)
    ensures Held(fds', timers', p, q) && fds' - fds !! old(p.live) && timers' - timers !! old(q.all)
    ensures Alone(fds, timers, p, q)
    ensures forall w :: w in p.live ==> w in old(p.live) || fresh(w)
    ensures forall t :: t in q.all ==> t in old(q.all) || fresh(t)
  {
    fds', timers' := fds, timers;
    if OfFd(c) {
      fds' := MakeFd(c, fds, timers, p, q);
    } else {
      timers' := MakeTimer(c, fds, timers, p, q);
    }
  }

  predicate OfFd(c: Call) {
    c.CreateFd? || c.Interest? || c.DestroyFd?
  }

  method MakeFd(c: Call, fds: set<WatchedFd>, timers: set<Timer>, p: Poll, q: TimerQueue)
    returns (fds': set<WatchedFd>)
    requires Valid(p, q) && p.waker.asleep && Held(fds, timers, p, q) && Allowed(c, fds, timers) && OfFd(c)
    modifies p`updates, p`ring, p`live, p.live`next, p.live`prev, p.live`interest, p.live`fd,
             p.waker`threadWoken, p.waker`pipe
    ensures Valid(p, q) && (old(p.waker.threadWoken) || Notable(c) ==> p.waker.threadWoken)
    ensures Held(fds', timers, p, q) && fds' - fds !! old(p.live)
    ensures Alone(fds, timers, p, q)
    ensures forall w :: w in p.live ==> w in old(p.live) || fresh(w)
  {
    fds' := fds;
    match c
    case CreateFd(fd) =>
      var w := MakeCreate(fd, p, q);
      fds' := fds + {w};
    case Interest(w, events) => MakeInterest(w, events, p, q);
    case DestroyFd(w) =>
      MakeDestroy(w, p, q);
      fds' := fds - {w};
  }

  method MakeTimer(c: Call, fds: set<WatchedFd>, timers: set<Timer>, p: Poll, q: TimerQueue)
    returns (timers': set<Timer>)
    requires Valid(p, q) && p.waker.asleep && Held(fds, timers, p, q) && Allowed(c, fds, timers) && !OfFd(c)
    modifies q`timers, q`ring, q`all, q.all, p.waker`threadWoken, p.waker`pipe
    ensures Valid(p, q) && (old(p.waker.threadWoken) || Notable(c) ==> p.waker.threadWoken)
    ensures Held(fds, timers', p, q) && timers' - timers !! old(q.all)
    ensures Alone(fds, timers, p, q)
    ensures forall t :: t in q.all ==> t in old(q.all) || fresh(t)
  {
    timers' := timers;
    match c
    case InitTimer =>
      var t := MakeInit(p, q);
      timers' := timers + {t};
    case SetTimer(t, earliest, latest) => MakeSet(t, earliest, latest, p, q);
    case CancelTimer(t) => MakeCancel(t, p, q);
    case WaitTimer(t, tasklet) => MakeWait(t, tasklet, p, q);
    case FiniTimer(t) =>
      MakeFini(t, p, q);
      timers' := timers - {t};
  }

  // Any of them, and any number up to `most`, on what is held by then.
  method Meanwhile(most: nat, fds: set<WatchedFd>, timers: set<Timer>, p: Poll, q: TimerQueue) returns (made: seq<Call>)
    requires Valid(p, q) && p.waker.asleep && Held(fds, timers, p, q)
    modifies p`updates, p`ring, p`live, p.live`next, p.live`prev, p.live`interest, p.live`fd,
             q`timers, q`ring, q`all, q.all, p.waker`threadWoken, p.waker`pipe
    ensures Valid(p, q) && |made| <= most && Alone(fds, timers, p, q)
    ensures forall w :: w in p.live ==> w in old(p.live) || fresh(w)
    ensures forall t :: t in q.all ==> t in old(q.all) || fresh(t)
    ensures (exists c :: c in made && Notable(c)) ==> p.waker.pipe > 0
  {
    made := [];
    var heldFds, heldTimers := fds, timers;
    var more: nat :| more <= most;
    while more > 0
      invariant |made| + more <= most && Valid(p, q) && Held(heldFds, heldTimers, p, q)
      invariant heldFds - fds !! old(p.live) && heldTimers - timers !! old(q.all) && Alone(fds, timers, p, q)
      invariant forall w :: w in p.live ==> w in old(p.live) || fresh(w)
      invariant forall t :: t in q.all ==> t in old(q.all) || fresh(t)
      invariant forall c :: c in made && Notable(c) ==> p.waker.threadWoken
    {
      assert Allowed(InitTimer, heldFds, heldTimers);
      var c: Call :| Allowed(c, heldFds, heldTimers);
      heldFds, heldTimers := Make(c, heldFds, heldTimers, p, q);
      made, more := made + [c], more - 1;
    }
  }

  // What is to be polled for is brought up to date, and the thread sleeps.
  method GoToSleep(p: Poll, q: TimerQueue)
    requires Valid(p, q) && !p.waker.asleep
    modifies p`updates, p`ring, p`used, p`pollfds, p`watchedFds, p`live, p`pollResult,
             p.live`prev, p.live`slot, p.live`lost, p.pollfds, p.watchedFds,
             q`planned, p.waker`threadWoken, p.waker`asleep
    ensures Valid(p, q) && p.waker.asleep && p.ring == [] && q.planned == FirstLatest(q.ring) && p.pollResult == 0
    ensures Undisturbed(p) && p.live <= old(p.live)
    ensures (p.pollfds == old(p.pollfds) && p.watchedFds == old(p.watchedFds))
      || (fresh(p.pollfds) && fresh(p.watchedFds))
  {
    PrepareFds(p, q);
    assert Undisturbed(p) && p.live <= old(p.live);
    q.Sleep();
  }

  method PrepareFds(p: Poll, q: TimerQueue)
    requires Valid(p, q) && !p.waker.asleep
    modifies p`updates, p`ring, p`used, p`pollfds, p`watchedFds, p`live, p`pollResult,
             p.live`prev, p.live`slot, p.live`lost, p.pollfds, p.watchedFds
    ensures Valid(p, q) && p.pollResult == 0 && Undisturbed(p)
    ensures (p.pollfds == old(p.pollfds) && p.watchedFds == old(p.watchedFds))
      || (fresh(p.pollfds) && fresh(p.watchedFds))
  {
    p.Prepare();
    forall w | old(p.ring) == [] && w in p.live
      ensures w.slot == old(w.slot) && (w.slot >= 1 ==> p.pollfds[w.slot] == old(p.pollfds[w.slot])) {
      assert p.Reported(w) == old(p.Reported(w));
    }
  }

  // The second half: the thread has been polling, or not, and has the mutex again.
  // What is in the wake-up pipe when poll_dispatch has read from it, going by what was reported of it.
  function PipeLeft(pipe: nat, standing: set<SysEvent>, polled: bool, result: int, revents: nat -> set<SysEvent>): nat {
    if polled && pipe > 0 && ((result > 0 && POLLIN in revents(0)) || (result < 0 && POLLIN in standing)) then pipe - 1
    else pipe
  }

  method Resume(p: Poll, q: TimerQueue, polled: bool, result: int, revents: nat -> set<SysEvent>)
    requires Valid(p, q) && p.waker.asleep && p.pollResult == 0
    modifies p`pollResult, p.pollfds, p.waker
    ensures Valid(p, q) && !p.waker.asleep && p.waker.threadWoken && p.pollResult == (if polled then result else 0)
    ensures forall i :: 0 <= i < p.used ==>
      p.pollfds[i].revents == if polled && result >= 0 then revents(i) else old(p.pollfds[i].revents)
    ensures p.waker.pipe == PipeLeft(old(p.waker.pipe), old(p.pollfds[0].revents), polled, result, revents)
  {
    if polled {
      p.Report(result, revents);
    }
    p.waker.Resume(polled && result != 0 && POLLIN in p.pollfds[0].revents);
  }

  datatype TimerState = TimerState(earliest: nat, fired: bool, linked: bool)

  ghost function Times(q: TimerQueue): map<Timer, TimerState>
    reads q`all, q`ring, q.all
  {
    map t | t in q.all :: TimerState(t.earliest, t.fired, t in q.ring)
  }

  // The timers of `met`, a ring with the timers as in `times`, that were due have gone and have fired, and no
  // others.
  ghost predicate TimersPassed(q: TimerQueue, met: seq<Timer>, times: map<Timer, TimerState>, now: nat)
    reads q`all, q`ring, q.all, met
  {
    && q.ring == Kept(met, NotDue(met, now)) && times.Keys == q.all
    && (forall t :: t in q.all ==> TimerPassed(t, t in q.ring, times[t], now) && (t in met <==> times[t].linked))
  }

  ghost predicate TimerPassed(t: Timer, linked: bool, was: TimerState, now: nat)
    reads t
  {
    && t.earliest == was.earliest
    && linked == (was.linked && was.earliest > now)
    && t.fired == (was.fired || (was.linked && was.earliest <= now))
    && (t.fired ==> t.asleep == {})
  }

  method DispatchTimers(p: Poll, q: TimerQueue, ghost met: seq<Timer>, ghost times: map<Timer, TimerState>, now: nat)
    requires Valid(p, q) && !p.waker.asleep && met == q.ring && times == Times(q)
    modifies q`timers, q`ring, q.all`next, q.all`prev, q.all`fired, q.all`asleep
    ensures Valid(p, q)
    ensures TimersPassed(q, met, times, now)
  {
    KeptMembers(q.ring, NotDue(q.ring, now));
    q.Dispatch(now);
    assert forall t :: t in q.all ==> q.TimerOk(t);
  }

  // The account that poll_dispatch takes of an entry, in terms of what was polled.
  ghost predicate AccountOk(w: WatchedFd, a: Account, slots: map<WatchedFd, Slot>, result: int,
      revents: nat -> set<SysEvent>)
    reads w`fd
  {
    && a.slotted == (w in slots)
    && (w in slots ==>
          && a.pollfd.revents == Heard(slots[w], result, revents)
          && a.got == FromSystem(Heard(slots[w], result, revents))
          && a.due == (w.fd >= 0 && Heard(slots[w], result, revents) != {}))
    && (w !in slots ==> !a.due)
  }

  lemma {:induction false} Accounted(p: Poll, slots: map<WatchedFd, Slot>, result: int, revents: nat -> set<SysEvent>)
    requires p.Valid() && slots.Keys == Slots(p).Keys
    requires forall w :: w in slots ==>
      slots[w].index == w.slot && p.pollfds[w.slot].revents == Heard(slots[w], result, revents)
    ensures forall w :: w in p.live ==> AccountOk(w, p.Reported(w), slots, result, revents)
  {
    forall w | w in p.live ensures AccountOk(w, p.Reported(w), slots, result, revents) {
      assert w in slots <==> w.slot >= 1;
    }
  }

  // Polling, or not, and what is reported of the entries.
  method ResumeWith(p: Poll, q: TimerQueue, polled: bool, result: int, revents: nat -> set<SysEvent>)
    requires Valid(p, q) && p.waker.asleep && p.pollResult == 0
    modifies p`pollResult, p.pollfds, p.waker
    ensures Valid(p, q) && !p.waker.asleep && p.waker.threadWoken && p.pollResult == (if polled then result else 0)
    ensures polled ==> forall w :: w in p.live ==> AccountOk(w, p.Reported(w), old(Slots(p)), result, revents)
    ensures p.waker.pipe == PipeLeft(old(p.waker.pipe), old(p.pollfds[0].revents), polled, result, revents)
  {
    ghost var slots := Slots(p);
    Resume(p, q, polled, result, revents);
    if polled {
      Accounted(p, slots, result, revents);
    }
  }

  // The handlers of `order` have been called, and those only, each with its account in acc; `slots` is
  // what stood in the array.
  ghost predicate Served(
      p: Poll, order: seq<WatchedFd>, acc: map<WatchedFd, Account>, slots: map<WatchedFd, Slot>,
      polled: bool, result: int, revents: nat -> set<SysEvent>)
    reads p, p.live, p.pollfds
  {
    && Distinct(order) && Elements(order) <= p.live == acc.Keys
    && (!polled || result == 0 ==>
          order == [] && forall w :: w in p.live ==> w.interest == acc[w].interest && w.lost == acc[w].lost)
    && (polled && result != 0 ==> forall w :: w in p.live ==>
          AccountOk(w, acc[w], slots, result, revents) && p.Outcome(w, acc[w], w in order))
  }

  // Polling changes nothing of an entry but what it has to report.
  predicate SameInterests(acc: map<WatchedFd, Account>, was: map<WatchedFd, Account>) {
    acc.Keys == was.Keys && forall w :: w in acc ==> acc[w].interest == was[w].interest && acc[w].lost == was[w].lost
  }

  method DispatchFds(
      p: Poll, q: TimerQueue, ghost slots: map<WatchedFd, Slot>, polled: bool, result: int,
        revents: nat -> set<SysEvent>)
    returns (ghost order: seq<WatchedFd>, ghost acc: map<WatchedFd, Account>)
    requires Valid(p, q) && !p.waker.asleep && p.pollResult == (if polled then result else 0)
    requires polled ==> forall w :: w in p.live ==> AccountOk(w, p.Reported(w), slots, result, revents)
    modifies p`used, p`live, p`handled, p.live`slot, p.live`interest, p.live`lost, p.pollfds, p.watchedFds
    ensures Valid(p, q) && p.live == old(p.live)
    ensures p.handled == old(p.handled) + Calls(order, acc)
    ensures Served(p, order, acc, slots, polled, result, revents)
    ensures SameInterests(acc, old(p.Accounts()))
  {
    acc := p.Accounts();
    order := p.Dispatch();
  }

  method DoEvents(p: Poll, q: TimerQueue, polled: bool, result: int, revents: nat -> set<SysEvent>)
    returns (ghost order: seq<WatchedFd>, ghost acc: map<WatchedFd, Account>)
    requires Valid(p, q) && p.waker.asleep && p.pollResult == 0
    modifies p`pollResult, p`used, p`live, p`handled, p.live`slot, p.live`interest, p.live`lost, p.pollfds,
      p.watchedFds, p.waker
    ensures Valid(p, q) && !p.waker.asleep && p.waker.threadWoken
    ensures p.handled == old(p.handled) + Calls(order, acc)
    ensures Served(p, order, acc, old(Slots(p)), polled, result, revents) && p.live == old(p.live)
    ensures p.waker.pipe == PipeLeft(old(p.waker.pipe), old(p.pollfds[0].revents), polled, result, revents)
    ensures SameInterests(acc, old(p.Accounts()))
  {
    ghost var slots := Slots(p);
    ResumeWith(p, q, polled, result, revents);
    order, acc := DispatchFds(p, q, slots, polled, result, revents);
  }

  // What the thread does with the mutex regained.
  method DoDue(
      p: Poll, q: TimerQueue, ghost met: seq<Timer>, ghost times: map<Timer, TimerState>, polled: bool, result: int,
      revents: nat -> set<SysEvent>, now: nat)
    returns (ghost order: seq<WatchedFd>, ghost acc: map<WatchedFd, Account>)
    requires Valid(p, q) && p.waker.asleep && p.pollResult == 0 && met == q.ring && times == Times(q)
    modifies p`pollResult, p`used, p`live, p`handled, p.live`slot, p.live`interest, p.live`lost, p.pollfds,
             p.watchedFds, q, q.all, p.waker
    ensures Valid(p, q) && !p.waker.asleep && p.waker.threadWoken
    ensures TimersPassed(q, met, times, now) && q.all == old(q.all)
    ensures p.handled == old(p.handled) + Calls(order, acc)
    ensures Served(p, order, acc, old(Slots(p)), polled, result, revents) && p.live == old(p.live)
    ensures p.waker.pipe == PipeLeft(old(p.waker.pipe), old(p.pollfds[0].revents), polled, result, revents)
    ensures SameInterests(acc, old(p.Accounts()))
  {
    ghost var slots := Slots(p);
    order, acc := DoEvents(p, q, polled, result, revents);
    assert met == q.ring && times == Times(q);
    DoTimers(p, q, order, acc, slots, met, times, polled, result, revents, now);
  }

  // The timers, after the events, of which they change nothing.
  method DoTimers(
      p: Poll, q: TimerQueue, ghost order: seq<WatchedFd>, ghost acc: map<WatchedFd, Account>,
      ghost slots: map<WatchedFd, Slot>, ghost met: seq<Timer>, ghost times: map<Timer, TimerState>,
      ghost polled: bool, ghost result: int, ghost revents: nat -> set<SysEvent>, now: nat)
    requires Valid(p, q) && !p.waker.asleep && met == q.ring && times == Times(q)
    requires Served(p, order, acc, slots, polled, result, revents)
    modifies q`timers, q`ring, q.all`next, q.all`prev, q.all`fired, q.all`asleep
    ensures Valid(p, q) && TimersPassed(q, met, times, now)
    ensures Served(p, order, acc, slots, polled, result, revents)
  {
    DispatchTimers(p, q, met, times, now);
  }

  method SleepThrough(most: nat, fds: set<WatchedFd>, timers: set<Timer>, p: Poll, q: TimerQueue)
    requires Valid(p, q) && !p.waker.asleep && Held(fds, timers, p, q)
    modifies p`updates, p`ring, p`used, p`pollfds, p`watchedFds, p`live, p`pollResult, p.live, p.pollfds, p.watchedFds,
             q`planned, q`timers, q`ring, q`all, q.all, p.waker
    ensures Valid(p, q) && p.waker.asleep && p.pollResult == 0
    ensures TimersLeftAlone(timers, Times(q), old(Times(q)))
    ensures LeftAlone(fds, p.Accounts(), old(Stand(p)))
    ensures forall w :: w in p.live ==> w in old(p.live) || fresh(w)
    ensures forall t :: t in q.all ==> t in old(q.all) || fresh(t)
    ensures (p.pollfds == old(p.pollfds) && p.watchedFds == old(p.watchedFds))
      || (fresh(p.pollfds) && fresh(p.watchedFds))
  {
    SleepHolding(fds, timers, p, q);
    LeaveAlone(most, fds, timers, p, q);
  }

  method SleepHolding(fds: set<WatchedFd>, timers: set<Timer>, p: Poll, q: TimerQueue)
    requires Valid(p, q) && !p.waker.asleep && Held(fds, timers, p, q)
    modifies p`updates, p`ring, p`used, p`pollfds, p`watchedFds, p`live, p`pollResult,
             p.live`prev, p.live`slot, p.live`lost, p.pollfds, p.watchedFds,
             q`planned, p.waker`threadWoken, p.waker`asleep
    ensures Valid(p, q) && p.waker.asleep && p.pollResult == 0 && p.live <= old(p.live)
    ensures Held(fds, timers, p, q) && Times(q) == old(Times(q)) && LeftAlone({}, p.Accounts(), old(Stand(p)))
    ensures (p.pollfds == old(p.pollfds) && p.watchedFds == old(p.watchedFds))
      || (fresh(p.pollfds) && fresh(p.watchedFds))
  {
    GoToSleep(p, q);
  }

  method LeaveAlone(most: nat, fds: set<WatchedFd>, timers: set<Timer>, p: Poll, q: TimerQueue)
    requires Valid(p, q) && p.waker.asleep && Held(fds, timers, p, q)
    modifies p`updates, p`ring, p`live, p.live`next, p.live`prev, p.live`interest, p.live`fd,
             q`timers, q`ring, q`all, q.all, p.waker`threadWoken, p.waker`pipe
    ensures Valid(p, q) && TimersLeftAlone(timers, Times(q), old(Times(q)))
    ensures forall w :: w in old(p.Accounts()) && w !in fds ==>
      w in p.Accounts() && p.Accounts()[w].interest == old(p.Accounts())[w].interest
    ensures forall w :: w in p.live ==> w in old(p.live) || fresh(w)
    ensures forall t :: t in q.all ==> t in old(q.all) || fresh(t)
  {
    var made := Meanwhile(most, fds, timers, p, q);
  }

  // Nothing has happened but that what is polled for is up to date.
  twostate predicate Undisturbed(p: Poll)
    requires old(p.Slots()) && p.Slots()
    reads p, p.live, p.pollfds, p.watchedFds
  {
    && p.ring == [] && p.live <= old(p.live)
    && (forall w :: w in old(p.live) ==> (w in p.live <==> old(w.fd) >= 0))
    && (forall w :: w in p.live && w in old(p.live) ==> w.interest == old(w.interest) && w.fd == old(w.fd))
    && (forall w :: w in p.live && w in old(p.ring) ==> w.lost == {})
    && (old(p.ring) == [] ==> Slots(p) == old(Slots(p)))
  }

  // One turn of the loop of poll_thread, with any calls made meanwhile.  Afterwards no timer that is left
  // is due.  Each handler called is called once, for an entry with something to report, with what this
  // poll() reported of its slot; or, if this poll() failed, with what stood there before.
  method Turn(
      p: Poll, q: TimerQueue, most: nat, fds: set<WatchedFd>, timers: set<Timer>,
      polled: bool, result: int, revents: nat -> set<SysEvent>, now: nat)
    returns (
      ghost order: seq<WatchedFd>, ghost acc: map<WatchedFd, Account>, ghost slots: map<WatchedFd, Slot>,
      ghost met: seq<Timer>, ghost times: map<Timer, TimerState>)
    requires Valid(p, q) && !p.waker.asleep && Held(fds, timers, p, q)
    modifies p, p.live, p.pollfds, p.watchedFds, q, q.all, p.waker
    ensures Valid(p, q) && !p.waker.asleep && p.waker.threadWoken
    ensures TimersPassed(q, met, times, now)
    ensures p.handled == old(p.handled) + Calls(order, acc)
    ensures Served(p, order, acc, slots, polled, result, revents)
    // What nobody holds has been met as it was before the turn.
    ensures TimersLeftAlone(timers, times, old(Times(q)))
    ensures LeftAlone(fds, acc, old(Stand(p)))
    ensures forall w :: w in p.live ==> w in old(p.live) || fresh(w)
    ensures forall t :: t in q.all ==> t in old(q.all) || fresh(t)
    ensures (p.pollfds == old(p.pollfds) && p.watchedFds == old(p.watchedFds))
      || (fresh(p.pollfds) && fresh(p.watchedFds))
  {
    SleepThrough(most, fds, timers, p, q);
    slots, met, times := Slots(p), q.ring, Times(q);
    order, acc := DoDue(p, q, met, times, polled, result, revents, now);
  }

  // One turn without any calls meanwhile: what is dispatched is then known from before the turn.
  method QuietTurn(
      p: Poll, q: TimerQueue, polled: bool, result: int, revents: nat -> set<SysEvent>, now: nat)
    returns (ghost order: seq<WatchedFd>, ghost acc: map<WatchedFd, Account>, ghost slots: map<WatchedFd, Slot>)
    requires Valid(p, q) && !p.waker.asleep
    modifies p, p.live, p.pollfds, p.watchedFds, q, q.all, p.waker
    ensures Valid(p, q) && !p.waker.asleep && q.all == old(q.all)
    ensures p.handled == old(p.handled) + Calls(order, acc)
    ensures Served(p, order, acc, slots, polled, result, revents)
    ensures Found(acc, slots, old(Stand(p))) && p.ring == []
    ensures TimersPassed(q, old(q.ring), old(Times(q)), now)
    ensures (p.pollfds == old(p.pollfds) && p.watchedFds == old(p.watchedFds))
      || (fresh(p.pollfds) && fresh(p.watchedFds))
  {
    ghost var asleep, met, times;
    ghost var was := Stand(p);
    slots, asleep, met, times := SleepQuietly(p, q);
    assert p.live <= old(p.live) && q.all == old(q.all);
    order, acc := DoDue(p, q, met, times, polled, result, revents, now);
    FoundStill(asleep, acc, slots, was);
  }

  lemma {:induction false} FoundStill(
      found: map<WatchedFd, Account>, acc: map<WatchedFd, Account>, slots: map<WatchedFd, Slot>, was: Standing)
    requires Found(found, slots, was) && SameInterests(acc, found)
    ensures Found(acc, slots, was)
  {
  }

  // What is so of the entries when the thread sleeps, by what was so before.
  method SleepQuietly(p: Poll, q: TimerQueue)
    returns (
      ghost slots: map<WatchedFd, Slot>, ghost asleep: map<WatchedFd, Account>, ghost met: seq<Timer>,
      ghost times: map<Timer, TimerState>)
    requires Valid(p, q) && !p.waker.asleep
    modifies p`updates, p`ring, p`used, p`pollfds, p`watchedFds, p`live, p`pollResult,
             p.live`prev, p.live`slot, p.live`lost, p.pollfds, p.watchedFds,
             q`planned, p.waker`threadWoken, p.waker`asleep
    ensures Valid(p, q) && p.waker.asleep && p.ring == [] && p.pollResult == 0
    ensures slots == Slots(p) && asleep == p.Accounts() && Found(asleep, slots, old(Stand(p)))
    ensures met == old(q.ring) == q.ring && times == old(Times(q)) == Times(q)
    ensures p.live <= old(p.live)
    ensures (p.pollfds == old(p.pollfds) && p.watchedFds == old(p.watchedFds))
      || (fresh(p.pollfds) && fresh(p.watchedFds))
  {
    met, times := q.ring, Times(q);
    GoToSleep(p, q);
    assert met == q.ring && times == Times(q);
    slots, asleep := Slots(p), p.Accounts();
    forall w | w in p.live ensures w in slots <==> w.interest != {} {
      p.Synchronised(w);
    }
  }

  // How things stand before a turn: the accounts of the entries, those that have not been destroyed, what is
  // to be synchronised, and the slots.
  datatype Standing = Standing(
    accounts: map<WatchedFd, Account>, alive: set<WatchedFd>, ring: seq<WatchedFd>, slots: map<WatchedFd, Slot>)

  ghost function Stand(p: Poll): Standing
    requires p.Slots()
    reads p, p.live, p.pollfds, p.watchedFds
  {
    Standing(p.Accounts(), (set w | w in p.live && w.fd >= 0), p.ring, Slots(p))
  }

  predicate TimersLeftAlone(timers: set<Timer>, times: map<Timer, TimerState>, was: map<Timer, TimerState>) {
    forall t :: t in was && t !in timers ==> t in times && times[t] == was[t]
  }

  predicate LeftAlone(fds: set<WatchedFd>, acc: map<WatchedFd, Account>, was: Standing) {
    forall w :: w in was.alive && w !in fds && w in was.accounts ==>
      w in acc && acc[w].interest == was.accounts[w].interest
  }

  ghost predicate Found(acc: map<WatchedFd, Account>, slots: map<WatchedFd, Slot>, was: Standing) {
    && acc.Keys == was.alive <= was.accounts.Keys
    && (forall w :: w in acc ==>
          acc[w].interest == was.accounts[w].interest && (w in slots <==> was.accounts[w].interest != {}))
    && (forall w :: w in was.ring && w in acc ==> acc[w].lost == {})
    && (was.ring == [] ==> slots == was.slots)
  }

  // The handler of w is told of what this poll() has reported.
  predicate AsReported(
      w: WatchedFd, acc: map<WatchedFd, Account>, slots: map<WatchedFd, Slot>, polled: bool, result: int,
      revents: nat -> set<SysEvent>)
  {
    w in acc && w in slots && polled && result > 0 && acc[w].got == FromSystem(revents(slots[w].index))
  }

  // Handlers are called for events that this poll() has not reported exactly when it failed and a live
  // entry with a slot has events standing.
  lemma {:induction false} StaleCalls(
      p: Poll, order: seq<WatchedFd>, acc: map<WatchedFd, Account>, slots: map<WatchedFd, Slot>,
      polled: bool, result: int, revents: nat -> set<SysEvent>)
    requires Served(p, order, acc, slots, polled, result, revents)
    ensures (exists w :: w in order && !AsReported(w, acc, slots, polled, result, revents))
      <==> polled && result < 0 && exists w :: w in p.live && w in slots && w.fd >= 0 && slots[w].standing != {}
  {
    forall w | w in order
      ensures w in p.live && w in slots && acc[w].due && AccountOk(w, acc[w], slots, result, revents) {
      assert w in Elements(order);
    }
  }

  // A run of two turns.  An entry has an interest in IN and OUT, and its handler is called with IN.  It is
  // then polled for both still, although its interest is in OUT only; and whether the next poll() fails, or
  // reports input again, its handler is called with IN a second time.
  method CalledAgain(result: int) returns (p: Poll, w: WatchedFd, interest: set<Event>, asked: set<SysEvent>)
    requires result != 0
    ensures p.handled == [(w, {IN}), (w, {IN})] && interest == {OUT} && asked == {POLLIN, POLLOUT}
  {
    var q;
    p, q, w := FirstTurn();
    interest, asked := w.interest, p.pollfds[w.slot].events;
    SecondTurn(p, q, w, result);
  }

  method SecondTurn(p: Poll, q: TimerQueue, w: WatchedFd, result: int)
    requires Valid(p, q) && !p.waker.asleep && p.live == {w} && p.ring == [] && result != 0
    requires w.fd >= 0 && w.slot >= 1 && w.interest != {} && p.pollfds[w.slot].revents == {POLLIN}
    modifies p, p.live, p.pollfds, p.watchedFds, q, q.all, p.waker
    ensures p.handled == old(p.handled) + [(w, {IN})]
  {
    ghost var order, acc, slots := QuietTurn(p, q, true, result, _ => {POLLIN}, 0);
    CalledWithInput(p, order, acc, slots, w, result);
  }

  method FirstTurn() returns (p: Poll, q: TimerQueue, w: WatchedFd)
    ensures Valid(p, q) && !p.waker.asleep && p.live == {w} && p.ring == [] && p.handled == [(w, {IN})]
    ensures w.fd >= 0 && w.slot >= 1 && w.interest == {OUT} && w.slot < p.pollfds.Length
    ensures p.pollfds[w.slot].events == {POLLIN, POLLOUT} && p.pollfds[w.slot].revents == {POLLIN}
    ensures fresh(p) && fresh(q) && fresh(w) && fresh(p.waker) && fresh(p.pollfds) && fresh(p.watchedFds)
    ensures fresh(q.all)
  {
    p, q, w := Interested();
    ghost var order, acc, slots := QuietTurn(p, q, true, 1, _ => {POLLIN}, 0);
    assert w in acc && acc[w].due && w in order;
    OnlyOne(order, w);
    InputTaken();
    assert w.lost == {IN};
  }

  method Interested() returns (p: Poll, q: TimerQueue, w: WatchedFd)
    ensures Valid(p, q) && !p.waker.asleep && p.live == {w} && w in p.ring && p.handled == []
    ensures w.fd >= 0 && w.interest == {IN, OUT} && q.all == {}
    ensures fresh(p) && fresh(q) && fresh(w) && fresh(p.waker) && fresh(p.pollfds) && fresh(p.watchedFds)
  {
    var waker := new Waker();
    p := new Poll(waker);
    q := new TimerQueue(waker);
    w := Watch(p, 5);
  }

  method Watch(p: Poll, fd: nat) returns (w: WatchedFd)
    requires p.Valid() && !p.waker.asleep && p.live == {}
    modifies p`live, p`updates, p`ring, p.waker`threadWoken, p.waker`pipe
    ensures p.Valid() && fresh(w) && p.live == {w} && w in p.ring && w.fd >= 0 && w.interest == {IN, OUT}
  {
    w := p.Create(fd);
    p.SetInterest(w, {IN, OUT});
  }

  lemma {:induction false} InputTaken()
    ensures FromSystem({POLLIN}) == {IN} && ToSystem({IN, OUT}) == {POLLIN, POLLOUT}
    ensures {IN, OUT} - {IN} == {OUT} && {} + {IN, OUT} * {IN} == {IN} && {OUT} + {IN} == {IN, OUT}
  {
  }

  lemma {:induction false} CalledWithInput(
      p: Poll, order: seq<WatchedFd>, acc: map<WatchedFd, Account>, slots: map<WatchedFd, Slot>, w: WatchedFd,
      result: int)
    requires p.live <= {w} && w in p.live && w in slots && w.fd >= 0 && result != 0 && slots[w].standing == {POLLIN}
    requires Served(p, order, acc, slots, true, result, _ => {POLLIN})
    ensures Calls(order, acc) == [(w, {IN})]
  {
    assert w in acc && acc[w].due && w in order;
    OnlyOne(order, w);
  }

  lemma {:induction false} OnlyOne(order: seq<WatchedFd>, w: WatchedFd)
    requires Distinct(order) && Elements(order) <= {w} && w in order
    ensures order == [w]
  {
    IsOnly(order, w, 0);
    if |order| > 1 { IsOnly(order, w, 1); }
  }

  lemma {:induction false} IsOnly(order: seq<WatchedFd>, w: WatchedFd, i: nat)
    requires i < |order| && Elements(order) <= {w}
    ensures order[i] == w
  {
    assert order[i] in Elements(order);
  }
}
