/** Event sets (src/poll_poll.c): the bit masks of the system, and those of the library. */
module PollEvents {
  datatype Event = IN | OUT | ERR
  datatype SysEvent = POLLIN | POLLOUT | POLLERR | POLLHUP | POLLNVAL

  // events_to_system
  function ToSystem(events: set<Event>): set<SysEvent> {
    (if IN in events then {POLLIN} else {}) + (if OUT in events then {POLLOUT} else {})
    + (if ERR in events then {POLLERR} else {})
  }

  // events_from_system
  function FromSystem(events: set<SysEvent>): set<Event> {
    (if POLLIN in events then {IN} else {}) + (if POLLOUT in events then {OUT} else {})
    + (if POLLERR in events || POLLHUP in events then {ERR} else {})
  }

  lemma {:induction false} SystemAndBack(events: set<Event>)
    ensures FromSystem(ToSystem(events)) == events
    ensures ToSystem(events) == {} <==> events == {}
    ensures ToSystem(events) <= {POLLIN, POLLOUT, POLLERR}
  {
    var back := FromSystem(ToSystem(events));
    forall e: Event ensures e in back <==> e in events {
      match e case IN => case OUT => case ERR =>
    }
    assert ToSystem(events) == {} ==> IN !in events && OUT !in events && ERR !in events by {
      assert IN in events ==> POLLIN in ToSystem(events);
      assert OUT in events ==> POLLOUT in ToSystem(events);
      assert ERR in events ==> POLLERR in ToSystem(events);
    }
    assert back == events;
  }

  // What poll() reports reaches the handler event by event: input, output, and errors and hang-ups alike.
  // Only POLLNVAL is kept from it.
  lemma {:induction false} Told(events: set<SysEvent>, more: set<SysEvent>)
    ensures FromSystem(events + more) == FromSystem(events) + FromSystem(more)
    ensures FromSystem(events) == {} <==> events <= {POLLNVAL}
    ensures FromSystem({POLLIN}) == {IN} && FromSystem({POLLOUT}) == {OUT}
    ensures FromSystem({POLLERR}) == FromSystem({POLLHUP}) == {ERR}
  {
    var all := FromSystem(events + more);
    forall e: Event ensures e in all <==> e in FromSystem(events) + FromSystem(more) {
      match e case IN => case OUT => case ERR =>
    }
    assert POLLIN in events ==> IN in FromSystem(events);
    assert POLLOUT in events ==> OUT in FromSystem(events);
    assert POLLERR in events || POLLHUP in events ==> ERR in FromSystem(events);
    forall e | e in events && FromSystem(events) == {} ensures e == POLLNVAL {
      match e case POLLIN => case POLLOUT => case POLLERR => case POLLHUP => case POLLNVAL =>
    }
  }

  lemma {:induction false} ToSystemInjective(a: set<Event>, b: set<Event>)
    ensures ToSystem(a) == ToSystem(b) <==> a == b
  {
    SystemAndBack(a);
    SystemAndBack(b);
  }

  lemma {:induction false} ToSystemMonotone(a: set<Event>, b: set<Event>)
    requires a <= b
    ensures ToSystem(a) <= ToSystem(b)
  {
  }
}

/** The set of watched file descriptors (src/poll_poll.c): a dense array handed to poll(), with
    back-pointers into it, and a ring of entries whose changes have still to reach it. */
module PollSet {
  import opened PollEvents
  import opened PollWaker
  import opened Rings

  // struct pollfd
  datatype PollFd = PollFd(fd: int, events: set<SysEvent>, revents: set<SysEvent>)

  // What poll() may report of an entry: what was asked for, and what it reports in any case.
  predicate Reportable(events: set<SysEvent>, revents: set<SysEvent>) {
    revents <= events + {POLLERR, POLLHUP, POLLNVAL}
  }

  // What poll_dispatch is to make of an entry, going by its state beforehand.
  datatype Account = Account(
    due: bool, got: set<Event>, interest: set<Event>, lost: set<Event>, slotted: bool, pollfd: PollFd)

  class WatchedFd {
    var fd: int
    var interest: set<Event>
    var slot: int
    var prev: WatchedFd?
    var next: WatchedFd?
    ghost var lost: set<Event>   // of its interest, by calls of its handler since it was last synchronised

    constructor (fd: int)
      ensures this.fd == fd && interest == {} && slot == -1 && prev == null
    {
      this.fd, interest, slot, prev, next, lost := fd, {}, -1, null, null, {};
    }
  }

  // The calls made, when the handlers of `order` are called in turn.
  ghost function Calls(order: seq<WatchedFd>, rep: map<WatchedFd, Account>): seq<(WatchedFd, set<Event>)> {
    if order == [] then []
    else
      var w := order[|order| - 1];
      Calls(order[..|order| - 1], rep) + (if w in rep then [(w, rep[w].got)] else [])
  }

  lemma {:induction false} CallsAt(order: seq<WatchedFd>, rep: map<WatchedFd, Account>)
    requires forall w :: w in order ==> w in rep
    ensures |Calls(order, rep)| == |order|
    ensures forall k :: 0 <= k < |order| ==> Calls(order, rep)[k] == (order[k], rep[order[k]].got)
  {
    if order != [] {
      CallsAt(order[..|order| - 1], rep);
    }
  }

  ghost predicate Edge(s: seq<WatchedFd>, i: nat)
    requires i < |s|
    reads s`next, s`prev
  {
    s[i].next == s[Succ(i, |s|)] && s[Succ(i, |s|)].prev == s[i]
  }

  ghost predicate Linked(s: seq<WatchedFd>)
    reads s`next, s`prev
  {
    forall i :: 0 <= i < |s| ==> Edge(s, i)
  }

  class Poll {
    const waker: Waker
    const pipefd: int            // the end of the wake-up pipe that is read from
    var updates: WatchedFd?
    var pollfds: array<PollFd>
    var watchedFds: array<WatchedFd?>
    var used: nat
    var pollResult: int
    ghost var ring: seq<WatchedFd>                     // linked from `updates`
    ghost var live: set<WatchedFd>                     // not freed
    ghost var handled: seq<(WatchedFd, set<Event>)>    // the calls of handlers, in order

    // poll_create
    constructor (w: Waker)
      requires w.Valid() && !w.asleep
      ensures Valid() && waker == w && ring == [] && live == {} && handled == [] && fresh(pollfds) && fresh(watchedFds)
    {
      var fd: int := *;
      waker, updates, used, pollResult, pipefd := w, null, 1, 0, fd;
      pollfds := new PollFd[10](_ => PollFd(fd, {POLLIN}, {}));
      watchedFds := new WatchedFd?[10](_ => null);
      ring, live, handled := [], {}, [];
    }

    ghost predicate Valid()
      reads this, waker, live, ring, pollfds, watchedFds
    {
      && waker.Valid() && RingOk() && Slots()
      && Fds(Elements(ring))
      && (waker.asleep && !waker.threadWoken ==> ring == [])
    }

    // An entry has a predecessor exactly when it is on the ring.
    ghost predicate RingOk()
      reads this, ring`next, ring`prev, live`prev
    {
      && (forall w :: w in ring ==> w in live)
      && (forall w :: w in live ==> (w.prev != null) == (w in ring))
      && Distinct(ring) && Linked(ring)
      && updates == (if ring == [] then null else ring[0])
    }

    // The array and the slots of its entries are inverse to each other; index 0 is the wake-up pipe.
    ghost predicate Slots()
      reads this, live`slot, pollfds, watchedFds
    {
      && 1 <= used <= pollfds.Length && watchedFds.Length == pollfds.Length
      && pollfds != watchedFds as object && pollfds[0].fd == pipefd && pollfds[0].events == {POLLIN}
      && (forall i :: 1 <= i < used ==> watchedFds[i] != null && watchedFds[i] in live && watchedFds[i].slot == i)
      && (forall w :: w in live ==> w.slot == -1 || (1 <= w.slot < used && watchedFds[w.slot] == w))
    }

    // An entry without changes to be synchronised has a slot exactly when it has an interest, and is then
    // polled for this and for what its interest has lost meanwhile.  An entry that has been destroyed is
    // waiting for its slot to be taken away.
    ghost predicate FdOk(w: WatchedFd, dirty: bool)
      reads this, w, pollfds
    {
      && (w.fd < 0 ==> dirty && w.interest == {} && w.slot >= 1)
      && (w.fd >= 0 && w.slot >= 1 ==> w.interest != {})
      && (!dirty && w.interest != {} ==> w.slot >= 1)
      && (1 <= w.slot < pollfds.Length ==>
            && (w.fd >= 0 ==> pollfds[w.slot].fd == w.fd)
            && (!dirty ==> w.interest * w.lost == {} && pollfds[w.slot].events == ToSystem(w.interest + w.lost)))
    }

    ghost predicate Fds(dirty: set<WatchedFd>)
      reads this, live, pollfds
    {
      forall w :: w in live ==> FdOk(w, w in dirty)
    }

    // watched_fd_create
    method Create(fd: nat) returns (w: WatchedFd)
      requires Valid()
      modifies this`live
      ensures Valid() && fresh(w) && live == old(live) + {w} && w.fd == fd && w.interest == {}
    {
      w := new WatchedFd(fd);
      live := live + {w};
    }

    // The part of `updated` that links an entry in before the head.
    method Enqueue(w: WatchedFd)
      requires RingOk() && w in live && w !in ring
      modifies this`updates, this`ring, live`next, live`prev
      ensures RingOk() && ring == old(ring) + [w]
    {
      if updates != null {
        Unrolled(ring);
        var head := updates;
        var tail := head.prev;
        w.prev, w.next := tail, head;
        head.prev := w;
        tail.next := w;
        Appended(ring, w);
      } else {
        updates, w.prev, w.next := w, w, w;
      }
      ring := ring + [w];
    }

    method Updated(w: WatchedFd)
      requires RingOk() && w in live && waker.Valid() && (waker.asleep && !waker.threadWoken ==> ring == [])
      modifies this`updates, this`ring, live`next, live`prev, waker`threadWoken, waker`pipe
      ensures RingOk() && waker.Valid() && (waker.asleep ==> waker.threadWoken)
      ensures old(waker.threadWoken) ==> waker.threadWoken
      ensures ring == old(ring) + (if w in old(ring) then [] else [w])
    {
      if w.prev != null { return; }
      Enqueue(w);
      waker.Wake();
    }

    // watched_fd_set_interest
    method SetInterest(w: WatchedFd, interest: set<Event>)
      requires Valid() && w in live && w.fd >= 0
      modifies this`updates, this`ring, live`next, live`prev, w`interest, waker`threadWoken, waker`pipe
      ensures Valid() && w in ring && w.interest == old(w.interest) + interest
      ensures waker.asleep ==> waker.threadWoken
      ensures old(waker.threadWoken) ==> waker.threadWoken
    {
      w.interest := w.interest + interest;
      Updated(w);
      forall u | u in live ensures FdOk(u, u in Elements(ring)) {
        assert old(FdOk(u, u in Elements(ring)));
      }
    }

    // watched_fd_destroy
    method Destroy(w: WatchedFd)
      requires Valid() && w in live && w.fd >= 0
      modifies this`updates, this`ring, this`live, live`next, live`prev, w`fd, w`interest,
               waker`threadWoken, waker`pipe
      ensures Valid() && (old(waker.threadWoken) ==> waker.threadWoken)
      ensures old(w.slot) < 0 ==> live == old(live) - {w} && ring == Removed(old(ring), w)
      ensures old(w.slot) >= 0 ==> live == old(live) && w.fd < 0 && w in ring
    {
      if w.slot < 0 {
        Free(w);
      } else {
        Orphan(w);
      }
    }

    // The second branch of watched_fd_destroy: the slot is to go first.
    method Orphan(w: WatchedFd)
      requires Valid() && w in live && w.fd >= 0 && w.slot >= 1
      modifies this`updates, this`ring, live`next, live`prev, w`fd, w`interest, waker`threadWoken, waker`pipe
      ensures Valid() && (old(waker.threadWoken) ==> waker.threadWoken) && w.fd < 0 && w in ring
    {
      w.fd := -1;
      w.interest := {};
      Updated(w);
      forall u | u in live ensures FdOk(u, u in Elements(ring)) {
        assert old(FdOk(u, u in Elements(ring)));
      }
    }

    // The first branch of watched_fd_destroy: an entry without a slot is freed at once.
    method Free(w: WatchedFd)
      requires Valid() && w in live && w.slot == -1
      modifies this`updates, this`ring, this`live, live`next, live`prev
      ensures Valid() && live == old(live) - {w} && ring == Removed(old(ring), w)
    {
      if w.prev != null {
        Unlink(w);
      } else {
        RemovedIsSame(ring, w);
      }
      live := live - {w};
      assert Slots();
      assert Fds(Elements(ring));
    }

    // The part of watched_fd_destroy that takes w off the updates ring; w keeps its own links.
    method Unlink(w: WatchedFd)
      requires RingOk() && w in ring
      modifies this`updates, this`ring, ring`next, ring`prev
      ensures ring == Removed(old(ring), w) && Distinct(ring) && Linked(ring)
      ensures forall u :: u in ring <==> u in old(ring) && u != w
      ensures forall u :: u in live && u != w ==> (u.prev != null) == (u in ring)
      ensures updates == (if ring == [] then null else ring[0])
    {
      ghost var j :| 0 <= j < |ring| && ring[j] == w;
      RemovedIsWithout(ring, j);
      WithoutMembers(ring, j);
      SelfLinked(ring, j);
      if w.prev == w {
        updates := null;
      } else {
        Bypass(w, ring, j);
        if updates == w {
          updates := w.next;
        }
      }
      ring := Without(ring, j);
    }

    // Gives the arrays twice the room.
    method Grow()
      requires Slots() && used <= pollfds.Length
      modifies this`pollfds, this`watchedFds
      ensures fresh(pollfds) && fresh(watchedFds) && pollfds.Length == watchedFds.Length == 2 * old(pollfds.Length)
      ensures forall i :: 0 <= i < used ==> pollfds[i] == old(pollfds[i]) && watchedFds[i] == old(watchedFds[i])
    {
      var fds := new PollFd[2 * pollfds.Length](_ => PollFd(0, {}, {}));
      var owners := new WatchedFd?[2 * pollfds.Length](_ => null);
      forall i | 0 <= i < used { fds[i] := pollfds[i]; }
      forall i | 0 <= i < used { owners[i] := watchedFds[i]; }
      pollfds, watchedFds := fds, owners;
    }

    // add_pollfd
    method AddPollfd(w: WatchedFd)
      requires Slots() && w in live && w.slot == -1
      modifies this`used, this`pollfds, this`watchedFds, w`slot, pollfds, watchedFds
      ensures Slots() && used == old(used) + 1 && w.slot == old(used)
      ensures (pollfds == old(pollfds) && watchedFds == old(watchedFds)) || (fresh(pollfds) && fresh(watchedFds))
      ensures pollfds[w.slot] == PollFd(w.fd, ToSystem(w.interest), {})
      ensures forall i :: 0 <= i < old(used) ==> pollfds[i] == old(pollfds[i]) && watchedFds[i] == old(watchedFds[i])
    {
      var slot := used;
      if slot == pollfds.Length {
        Grow();
      }
      used := used + 1;
      pollfds[slot] := PollFd(w.fd, ToSystem(w.interest), {});
      watchedFds[slot] := w;
      w.slot := slot;
    }

    // remove_pollfd: the last entry takes the place of the one removed, which is freed when it has
    // been destroyed before.
    method RemovePollfd(slot: nat)
      requires Slots() && 1 <= slot < used
      modifies this`used, this`live, live`slot, pollfds, watchedFds
      ensures used == old(used) - 1
      ensures var w := old(watchedFds[slot]);
        && live == old(live) - (if w.fd < 0 then {w} else {})
        && (w.fd >= 0 ==> w.slot == -1)
      ensures Slots()
      ensures forall u :: u in live && u != old(watchedFds[slot]) ==>
        && (u.slot >= 1 <==> old(u.slot) >= 1)
        && (u.slot >= 1 ==> pollfds[u.slot] == old(pollfds[u.slot]))
      ensures forall i :: 0 <= i < used && i != slot ==>
        pollfds[i] == old(pollfds[i]) && watchedFds[i] == old(watchedFds[i])
      ensures slot < used ==> pollfds[slot] == old(pollfds[used - 1]) && watchedFds[slot] == old(watchedFds[used - 1])
    {
      var w: WatchedFd := watchedFds[slot];
      used := used - 1;
      pollfds[slot] := pollfds[used];
      watchedFds[slot] := watchedFds[used];
      watchedFds[slot].slot := slot;
      if w.fd < 0 {
        live := live - {w};
      } else {
        w.slot := -1;
      }
    }

    // What poll_prepare does for one entry.
    method Sync(w: WatchedFd, ghost dirty: set<WatchedFd>)
      requires Slots() && Fds(dirty) && w in live && w in dirty
      modifies this`used, this`pollfds, this`watchedFds, this`live, live`slot, w`lost, pollfds, watchedFds
      ensures Slots() && Fds(dirty - {w}) && w.lost == {}
      ensures live == old(live) - (if w.fd < 0 then {w} else {})
      ensures (pollfds == old(pollfds) && watchedFds == old(watchedFds)) || (fresh(pollfds) && fresh(watchedFds))
    {
      w.lost := {};
      assert w.interest + w.lost == w.interest;
      if w.slot < 0 {
        if w.interest != {} {
          AddPollfd(w);
        }
      } else if w.interest != {} {
        pollfds[w.slot] := pollfds[w.slot].(events := ToSystem(w.interest));
      } else {
        RemovePollfd(w.slot);
      }
    }

    // The state of poll_prepare when the entries from was[i] on have still to be dealt with.
    ghost predicate Preparing(was: seq<WatchedFd>, i: nat, before: set<WatchedFd>)
      reads this, was, live, before, pollfds, watchedFds
    {
      && i <= |was| && live == (set u | u in before && (u.fd >= 0 || u in was[i..]))
      && Distinct(was) && Slots() && Fds(Elements(was[i..]))
      && (forall u :: u in was[i..] ==> u in live)
      && (forall j :: 0 <= j < i ==> was[j].lost == {})
      && (forall u :: u in live ==> (u.prev != null) == (u in was[i..]))
      && (forall j :: i <= j < |was| ==> was[j].next == was[Succ(j, |was|)])
    }

    // One turn of its loop.
    method Turn(w: WatchedFd, ghost was: seq<WatchedFd>, ghost i: nat, ghost before: set<WatchedFd>)
      returns (next: WatchedFd)
      requires Preparing(was, i, before) && i < |was| && w == was[i]
      modifies this`used, this`pollfds, this`watchedFds, this`live, live`prev, live`slot, live`lost, pollfds, watchedFds
      ensures Preparing(was, i + 1, before) && next == was[Succ(i, |was|)]
      ensures (pollfds == old(pollfds) && watchedFds == old(watchedFds)) || (fresh(pollfds) && fresh(watchedFds))
    {
      ghost var dirty := Elements(was[i..]);
      w.prev := null;
      next := w.next;
      Sync(w, dirty);
      TailElements(was, i);
    }

    // The loop of poll_prepare.
    method SyncAll(head: WatchedFd, ghost was: seq<WatchedFd>)
      requires was != [] && head == was[0] && Preparing(was, 0, live)
      modifies this`used, this`pollfds, this`watchedFds, this`live, live`prev, live`slot, live`lost, pollfds, watchedFds
      ensures Preparing(was, |was|, old(live))
      ensures (pollfds == old(pollfds) && watchedFds == old(watchedFds)) || (fresh(pollfds) && fresh(watchedFds))
    {
      var w := head;
      ghost var i := 0;
      while true
        invariant i < |was| && w == was[i] && Preparing(was, i, old(live))
        invariant (pollfds == old(pollfds) && watchedFds == old(watchedFds)) || (fresh(pollfds) && fresh(watchedFds))
        decreases |was| - i
      {
        w := Turn(w, was, i, old(live));
        i := i + 1;
        if w == head { break; }
      }
    }

    lemma {:induction false} PrepareBegins()
      requires Valid() && ring != []
      ensures Preparing(ring, 0, live)
    {
      Neighbours(ring, 0);
      assert ring[0..] == ring;
    }

    method PrepareEnds(ghost was: seq<WatchedFd>, ghost before: set<WatchedFd>)
      requires Preparing(was, |was|, before) && waker.Valid()
      modifies this`updates, this`ring
      ensures Valid() && ring == [] && live == set u | u in before && u.fd >= 0
    {
      assert was[|was|..] == [] && Elements(was[|was|..]) == {};
      updates, ring := null, [];
      assert Elements(ring) == {};
    }

    // poll_prepare: every change reaches the array, and the entries that were destroyed are freed.
    method Prepare()
      requires Valid() && !waker.asleep
      modifies this`updates, this`ring, this`used, this`pollfds, this`watchedFds, this`live, this`pollResult,
               live`prev, live`slot, live`lost, pollfds, watchedFds
      ensures Valid() && ring == [] && pollResult == 0
      ensures live == set w | w in old(live) && w.fd >= 0
      ensures forall w :: w in old(ring) ==> w.lost == {}
      ensures old(ring) == [] ==>
        && used == old(used) && live == old(live)
        && forall w :: w in live ==> Reported(w) == old(Reported(w)) && w.slot == old(w.slot)
      ensures (pollfds == old(pollfds) && watchedFds == old(watchedFds)) || (fresh(pollfds) && fresh(watchedFds))
    {
      pollResult := 0;
      if updates == null { return; }
      PrepareBegins();
      SyncAll(updates, ring);
      PrepareEnds(ring, old(live));
    }

    // With nothing left to synchronise, exactly the entries with an interest have a slot, and what
    // is polled for covers the interest.  A sleeping thread that has not been woken is in that state.
    lemma {:induction false} Synchronised(w: WatchedFd)
      requires Valid() && w in live
      requires ring == [] || (waker.asleep && waker.pipe == 0)
      ensures w.fd >= 0 && (w.slot >= 1 <==> w.interest != {})
      ensures w.slot >= 1 ==>
        && w.slot < used <= pollfds.Length && ToSystem(w.interest) <= pollfds[w.slot].events
        && (pollfds[w.slot].events == ToSystem(w.interest) <==> w.lost == {})
    {
      ToSystemMonotone(w.interest, w.interest + w.lost);
      ToSystemInjective(w.interest + w.lost, w.interest);
      assert w.interest + w.lost == w.interest && w.interest * w.lost == {} ==> w.lost == {};
      assert w.interest + {} == w.interest;
    }

    // An entry that is polled for just its interest, and keeps its slot, is so after poll_dispatch if and
    // only if its handler was not called, or with nothing that it had an interest in.
    lemma {:induction false} StillExact(w: WatchedFd, r: Account, called: bool)
      requires Outcome(w, r, called) && w.slot >= 1 && r.pollfd.events == ToSystem(r.interest)
      ensures pollfds[w.slot].events == ToSystem(w.interest) <==> !called || r.interest * r.got == {}
    {
      ToSystemInjective(r.interest, w.interest);
      assert forall e :: e in r.interest && e in r.got ==> e in r.interest * r.got;
      assert r.interest * r.got == {} ==> r.interest - r.got == r.interest;
    }

    // So a handler may be told of an event that it has no interest in: of those that can be asked for, just
    // the ones that it has been called with since the entry was last synchronised.
    lemma {:induction false} Unwanted(w: WatchedFd, e: Event)
      requires Valid() && w in live && w.slot >= 1 && (ring == [] || (waker.asleep && waker.pipe == 0))
      requires e != ERR && e !in w.interest
      ensures w.slot < pollfds.Length
      ensures e in w.lost
        <==> exists revents :: Reportable(pollfds[w.slot].events, revents) && e in FromSystem(revents)
    {
      if e in w.lost {
        assert Reportable(pollfds[w.slot].events, ToSystem({e})) && e in FromSystem(ToSystem({e}));
      }
    }

    // poll() has reported on the entries, or has failed and left the last report standing.
    method Report(result: int, revents: nat -> set<SysEvent>)
      requires Valid()
      modifies this`pollResult, pollfds
      ensures Valid() && pollResult == result
      ensures forall i :: 0 <= i < used ==>
        pollfds[i].revents == if result < 0 then old(pollfds[i].revents) else revents(i)
    {
      pollResult := result;
      if result < 0 { return; }
      forall i | 0 <= i < used { pollfds[i] := pollfds[i].(revents := revents(i)); }
    }

    ghost function Reported(w: WatchedFd): Account
      reads this, w, pollfds
    {
      var pollfd := if 1 <= w.slot < pollfds.Length then pollfds[w.slot] else PollFd(0, {}, {});
      Account(pollfd.revents != {} && w.fd >= 0, FromSystem(pollfd.revents), w.interest, w.lost, w.slot >= 1, pollfd)
    }

    // How an entry stands when poll_dispatch has dealt with the slots below i.
    ghost predicate Dispatched(w: WatchedFd, i: nat, r: Account, called: bool)
      reads this, w, pollfds
    {
      && (w.slot >= i ==> Reported(w) == r && !called)
      && (w.slot < i && r.due ==>
            && called && r.slotted && w.interest == r.interest - r.got && w.lost == r.lost + r.interest * r.got
            && (w.slot >= 1 <==> w.interest != {}))
      && (w.slot < i && !r.due ==>
            !called && w.interest == r.interest && w.lost == r.lost && (w.slot >= 1 <==> r.slotted))
      && (1 <= w.slot < pollfds.Length ==> pollfds[w.slot] == r.pollfd)
    }

    ghost predicate Dispatching(i: nat, rep: map<WatchedFd, Account>,
        order: seq<WatchedFd>, before: seq<(WatchedFd, set<Event>)>)
      reads this, live, pollfds, watchedFds
    {
      && 1 <= i <= used && Slots() && Fds(Elements(ring)) && live == rep.Keys
      && (forall w :: w in live ==> Dispatched(w, i, rep[w], w in order))
      && Distinct(order) && (forall w :: w in order ==> w in live)
      && handled == before + Calls(order, rep)
    }

    // The handler of w, in slot i, has just been called.
    ghost predicate Called(w: WatchedFd, i: nat, rep: map<WatchedFd, Account>,
        order: seq<WatchedFd>, before: seq<(WatchedFd, set<Event>)>)
      reads this, live, pollfds, watchedFds
    {
      && 1 <= i < used && Slots() && live == rep.Keys
      && w in live && w.slot == i && w.fd >= 0 && rep[w].due && rep[w].slotted && w in order
      && w.interest == rep[w].interest - rep[w].got && w.lost == rep[w].lost + rep[w].interest * rep[w].got
      && pollfds[i] == rep[w].pollfd
      && (w.interest != {} ==> FdOk(w, w in ring))
      && (forall u :: u in live && u != w ==> FdOk(u, u in ring) && Dispatched(u, i, rep[u], u in order))
      && Distinct(order) && (forall u :: u in order ==> u in live)
      && handled == before + Calls(order, rep)
    }

    method CallHandler(w: WatchedFd, i: nat, ghost rep: map<WatchedFd, Account>,
        ghost order: seq<WatchedFd>, ghost before: seq<(WatchedFd, set<Event>)>)
      requires Dispatching(i, rep, order, before) && i < used && watchedFds[i] == w
      requires pollfds[i].revents != {} && w.fd >= 0
      modifies w`interest, w`lost, this`handled
      ensures Called(w, i, rep, order + [w], before)
    {
      var got := FromSystem(pollfds[i].revents);
      assert rep[w] == Reported(w);
      assert (order + [w])[..|order|] == order;
      assert w.interest - got + (w.lost + w.interest * got) == w.interest + w.lost;
      w.lost := w.lost + w.interest * got;
      w.interest := w.interest - got;
      handled := handled + [(w, got)];
      forall u | u in live && u != w
        ensures FdOk(u, u in ring) && Dispatched(u, i, rep[u], u in order + [w]) {
        assert old(FdOk(u, u in Elements(ring))) && old(Dispatched(u, i, rep[u], u in order));
      }
    }

    // An entry whose interest has become empty loses its slot, to an entry not yet visited.
    method Dismiss(w: WatchedFd, i: nat, ghost rep: map<WatchedFd, Account>,
        ghost order: seq<WatchedFd>, ghost before: seq<(WatchedFd, set<Event>)>)
      requires Called(w, i, rep, order, before) && w.interest == {}
      modifies this`used, this`live, live`slot, pollfds, watchedFds
      ensures Dispatching(i, rep, order, before) && used == old(used) - 1
    {
      assert forall u :: u in live && u.slot >= i && u != w ==> u.slot > i;
      RemovePollfd(i);
      forall u | u in live && u != w
        ensures FdOk(u, u in ring) && Dispatched(u, i, rep[u], u in order) {
        assert old(FdOk(u, u in ring)) && old(Dispatched(u, i, rep[u], u in order));
      }
      assert FdOk(w, w in ring) && Dispatched(w, i, rep[w], w in order);
    }

    // One turn of the loop of poll_dispatch.
    method Visit(i: nat, ghost rep: map<WatchedFd, Account>,
        ghost order: seq<WatchedFd>, ghost before: seq<(WatchedFd, set<Event>)>)
      returns (j: nat, ghost after: seq<WatchedFd>)
      requires Dispatching(i, rep, order, before) && i < used
      modifies this`used, this`live, this`handled, live`slot, live`interest, live`lost, pollfds, watchedFds
      ensures Dispatching(j, rep, after, before)
      ensures used - j < old(used) - i
    {
      var w: WatchedFd := watchedFds[i];
      if pollfds[i].revents == {} || w.fd < 0 {
        return i + 1, order;
      }
      CallHandler(w, i, rep, order, before);
      after := order + [w];
      if w.interest == {} {
        Dismiss(w, i, rep, after, before);
        j := i;
      } else {
        j := i + 1;
      }
    }

    // The loop of poll_dispatch.
    method VisitAll(ghost rep: map<WatchedFd, Account>, ghost before: seq<(WatchedFd, set<Event>)>)
      returns (ghost order: seq<WatchedFd>)
      requires Dispatching(1, rep, [], before)
      modifies this`used, this`live, this`handled, live`slot, live`interest, live`lost, pollfds, watchedFds
      ensures Dispatching(used, rep, order, before)
    {
      var i := 1;
      order := [];
      while i < used
        invariant Dispatching(i, rep, order, before)
        decreases used - i
      {
        i, order := Visit(i, rep, order, before);
      }
    }

    // What becomes of an entry whose account was r before poll_dispatch.
    ghost predicate Outcome(w: WatchedFd, r: Account, called: bool)
      reads this, w, pollfds
    {
      && called == r.due
      && w.interest == r.interest - (if called then r.got else {})
      && w.lost == r.lost + (if called then r.interest * r.got else {})
      && (w.slot >= 1 <==> r.slotted && (called ==> w.interest != {}))
      && (w.slot >= 1 ==> w.slot < pollfds.Length && pollfds[w.slot] == r.pollfd)
    }

    // poll_dispatch: the handlers of the live entries with something to report are called, each once
    // and with what poll() said of its entry, and no others; these events leave their interest, and
    // an entry whose interest is then empty gives up its slot.  Nothing else is changed in the array.
    method Dispatch() returns (ghost order: seq<WatchedFd>)
      requires Valid() && !waker.asleep
      modifies this`used, this`live, this`handled, live`slot, live`interest, live`lost, pollfds, watchedFds
      ensures Valid() && live == old(live)
      ensures Distinct(order) && (forall w :: w in order ==> w in live)
      ensures handled == old(handled) + Calls(order, old(Accounts()))
      ensures pollResult != 0 ==> forall w :: w in live ==> Outcome(w, old(Reported(w)), w in order)
      ensures pollResult == 0 ==>
        && order == [] && used == old(used)
        && forall w :: w in live ==> Reported(w) == old(Reported(w)) && w.slot == old(w.slot)
    {
      order := [];
      if pollResult == 0 {
        assert handled + Calls(order, Accounts()) == handled;
        return;
      }
      order := DispatchAll();
    }

    method DispatchAll() returns (ghost order: seq<WatchedFd>)
      requires Valid() && !waker.asleep
      modifies this`used, this`live, this`handled, live`slot, live`interest, live`lost, pollfds, watchedFds
      ensures Valid() && live == old(live)
      ensures Distinct(order) && (forall w :: w in order ==> w in live)
      ensures handled == old(handled) + Calls(order, old(Accounts()))
      ensures forall w :: w in live ==> Outcome(w, old(Reported(w)), w in order)
    {
      ghost var rep := Accounts();
      DispatchBegins();
      order := VisitAll(rep, handled);
      DispatchEnds(rep, order, old(handled));
    }

    lemma {:induction false} DispatchBegins()
      requires Valid()
      ensures Dispatching(1, Accounts(), [], handled)
    {
      assert handled + Calls([], Accounts()) == handled;
    }

    lemma {:induction false} DispatchEnds(rep: map<WatchedFd, Account>,
        order: seq<WatchedFd>, before: seq<(WatchedFd, set<Event>)>)
      requires Dispatching(used, rep, order, before)
      ensures forall w :: w in live ==> Outcome(w, rep[w], w in order)
    {
      forall w | w in live ensures Outcome(w, rep[w], w in order) {
        assert Dispatched(w, used, rep[w], w in order);
      }
    }

    ghost function Accounts(): map<WatchedFd, Account>
      reads this, live, pollfds
    {
      map w | w in live :: Reported(w)
    }
  }

  // Makes the neighbours of w = s[j] each other's neighbours.
  method Bypass(w: WatchedFd, ghost s: seq<WatchedFd>, ghost j: nat)
    requires |s| > 1 && j < |s| && s[j] == w && Distinct(s) && Linked(s)
    modifies s`next, s`prev
    ensures Linked(Without(s, j)) && w.next == old(w.next)
    ensures w.next == Without(s, j)[if j == |s| - 1 then 0 else j]
    ensures forall u :: u in s && u != w ==> u.prev != null
  {
    Neighbours(s, j);
    w.next.prev := w.prev;
    w.prev.next := w.next;
    ghost var r := Without(s, j);
    forall i | 0 <= i < |r| ensures Edge(r, i) {
      var k := if i < j then i else i + 1;
      assert r[i] == s[k];
    }
    forall u | u in s && u != w ensures u.prev != null {
      var k :| 0 <= k < |s| && s[k] == u;
      assert Succ(if k == 0 then |s| - 1 else k - 1, |s|) == k;
    }
  }

  lemma {:induction false} SelfLinked(s: seq<WatchedFd>, j: nat)
    requires j < |s| && Distinct(s) && Linked(s)
    ensures (s[j].prev == s[j]) == (|s| == 1)
  {
    assert Edge(s, if j == 0 then |s| - 1 else j - 1);
  }

  // The links of a ring, written out.
  lemma {:induction false} Neighbours(s: seq<WatchedFd>, j: nat)
    requires j < |s| && Linked(s)
    ensures s[j].next == s[Succ(j, |s|)] && s[j].prev == s[if j == 0 then |s| - 1 else j - 1]
    ensures forall i :: 0 <= i < |s| ==> s[i].next == s[Succ(i, |s|)] && s[Succ(i, |s|)].prev == s[i]
  {
    forall i | 0 <= i < |s| ensures s[i].next == s[Succ(i, |s|)] && s[Succ(i, |s|)].prev == s[i] {
      assert Edge(s, i);
    }
    assert Edge(s, if j == 0 then |s| - 1 else j - 1);
  }

  lemma {:induction false} Unrolled(s: seq<WatchedFd>)
    requires s != [] && Linked(s)
    ensures s[|s| - 1].next == s[0] && s[0].prev == s[|s| - 1]
    ensures forall i :: 0 <= i < |s| - 1 ==> s[i].next == s[i + 1] && s[i + 1].prev == s[i]
  {
    assert Edge(s, |s| - 1);
    forall i | 0 <= i < |s| - 1 ensures s[i].next == s[i + 1] && s[i + 1].prev == s[i] {
      assert Edge(s, i);
    }
  }

  lemma {:induction false} Appended(s: seq<WatchedFd>, w: WatchedFd)
    requires s != [] && w !in s && Distinct(s)
    requires w.next == s[0] && w.prev == s[|s| - 1] && s[0].prev == w && s[|s| - 1].next == w
    requires forall i :: 0 <= i < |s| - 1 ==> s[i].next == s[i + 1] && s[i + 1].prev == s[i]
    ensures Linked(s + [w])
  {
    forall i | 0 <= i < |s| + 1 ensures Edge(s + [w], i) {
      if i < |s| - 1 { assert (s + [w])[i + 1] == s[i + 1]; }
    }
  }
}
