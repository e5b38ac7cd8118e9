/** The timers of the poll thread (src/poll_common.c): an intrusive ring that is filtered in place. */
module Timers {
  import opened PollWaker
  import opened Rings

  class Timer {
    var earliest: nat
    var latest: nat
    var fired: bool
    var next: Timer?
    var prev: Timer?
    ghost var asleep: set<nat>   // the tasklets that timer_wait has put to sleep

    // timer_init
    constructor ()
      ensures next == null && !fired && asleep == {}
    {
      earliest, latest, fired, next, prev, asleep := 0, 0, false, null, null, {};
    }
  }

  ghost predicate Edge(s: seq<Timer>, i: nat)
    requires i < |s|
    reads s`next, s`prev
  {
    s[i].next == s[Succ(i, |s|)] && s[Succ(i, |s|)].prev == s[i]
  }

  // A circular doubly linked list.
  ghost predicate Linked(s: seq<Timer>)
    reads s`next, s`prev
  {
    forall i :: 0 <= i < |s| ==> Edge(s, i)
  }

  ghost function NotDue(s: seq<Timer>, now: nat): set<Timer>
    reads s`earliest
  {
    set t | t in s && t.earliest > now
  }

  // Makes the neighbours of t = s[j] each other's neighbours; t keeps its own links.
  method Bypass(t: Timer, next: Timer, ghost s: seq<Timer>, ghost j: nat)
    requires |s| > 1 && j < |s| && s[j] == t && Distinct(s) && Linked(s)
    requires next == t.next
    modifies s`next, s`prev
    ensures Linked(Without(s, j)) && next == Without(s, j)[if j == |s| - 1 then 0 else j]
    ensures forall u :: u in s && u != t ==> u.next != null
    ensures t.next == old(t.next)
  {
    Neighbours(s, j);
    var prev := t.prev;
    next.prev := prev;
    prev.next := next;
    ghost var r := Without(s, j);
    forall i | 0 <= i < |r| ensures Edge(r, i) {
      var k := if i < j then i else i + 1;
      assert r[i] == s[k];
    }
    forall u | u in s && u != t ensures u.next != null {
      var k :| 0 <= k < |s| && s[k] == u;
    }
  }

  // The least of the latest times, or -1.
  ghost function FirstLatest(s: seq<Timer>): int
    reads s`latest
  {
    if s == [] then -1
    else
      var rest, mine := FirstLatest(s[..|s| - 1]), s[|s| - 1].latest;
      if rest < 0 || mine < rest then mine else rest
  }

  lemma {:induction false} FirstLatestIsLeast(s: seq<Timer>)
    ensures s == [] <==> FirstLatest(s) == -1
    ensures s != [] ==> FirstLatest(s) >= 0 && exists t :: t in s && t.latest == FirstLatest(s)
    ensures forall t :: t in s ==> FirstLatest(s) <= t.latest
  {
    if s != [] {
      FirstLatestIsLeast(s[..|s| - 1]);
    }
  }

  class TimerQueue {
    const waker: Waker
    var timers: Timer?
    ghost var ring: seq<Timer>
    ghost var all: set<Timer>    // the timers that have been initialised and not finalised
    ghost var planned: int       // what the poll thread last took to be the next deadline

    constructor (w: Waker)
      requires w.Valid() && !w.asleep
      ensures Valid() && ring == [] && all == {} && waker == w
    {
      waker, timers, ring, all, planned := w, null, [], {}, -1;
    }

    ghost predicate Valid()
      reads this, waker, all, ring
    {
      && waker.Valid()
      && RingOk()
      && (forall t :: t in all ==> TimerOk(t))
      && (waker.asleep && !waker.threadWoken ==> planned == FirstLatest(ring))
    }

    // A timer has a successor exactly when it is on the ring.
    ghost predicate RingOk()
      reads this, ring`next, ring`prev, all`next
    {
      && (forall t :: t in ring ==> t in all)
      && (forall t :: t in all ==> (t.next != null) == (t in ring))
      && Distinct(ring) && Linked(ring)
      && timers == (if ring == [] then null else ring[0])
    }

    ghost predicate TimerOk(t: Timer)
      reads this, t
    {
      && (t in ring ==> t.earliest < t.latest && !t.fired)
      && (t.fired ==> t.asleep == {})
    }

    // The part of timer_set that links the timer in before the head.
    method Enqueue(t: Timer)
      requires RingOk() && t in all && t !in ring
      modifies this`timers, this`ring, all`next, all`prev
      ensures RingOk() && ring == old(ring) + [t]
    {
      if timers != null {
        Unrolled(ring);
        var head := timers;
        var tail := head.prev;
        t.next, t.prev := head, tail;
        head.prev := t;
        tail.next := t;
        Appended(ring, t);
      } else {
        timers := t;
        t.prev, t.next := t, t;
      }
      ring := ring + [t];
    }

    method EnqueueSet(t: Timer)
      requires RingOk() && t in all && t !in ring && forall u :: u in all ==> TimerOk(u)
      requires t.earliest < t.latest && !t.fired
      modifies this`timers, this`ring, all`next, all`prev
      ensures RingOk() && ring == old(ring) + [t] && forall u :: u in all ==> TimerOk(u)
    {
      Enqueue(t);
      forall u | u in all ensures TimerOk(u) {
        assert old(TimerOk(u));
      }
    }

    // timer_set
    method Set(t: Timer, earliest: nat, latest: nat)
      requires Valid() && t in all && earliest < latest
      modifies this`timers, this`ring, all`next, all`prev, t, waker`threadWoken, waker`pipe
      ensures Valid() && waker.threadWoken
      ensures ring == if t in old(ring) then old(ring) else old(ring) + [t]
      ensures t.earliest == earliest && t.latest == latest && !t.fired && t.asleep == old(t.asleep)
    {
      t.earliest, t.latest, t.fired := earliest, latest, false;
      if t.next == null {
        EnqueueSet(t);
      }
      waker.Wake();
    }

    // timer_cancel_locked, but for the wake-up: t is left with its stale links.
    method Unlink(t: Timer)
      requires RingOk() && t in all
      modifies this`timers, this`ring, all`next, all`prev
      ensures Distinct(ring) && Linked(ring) && (forall u :: u in ring ==> u in all)
      ensures timers == (if ring == [] then null else ring[0])
      ensures ring == Removed(old(ring), t) && (t != old(timers) ==> timers == old(timers))
      ensures forall u :: u in ring <==> u in old(ring) && u != t
      ensures forall u :: u in all && u != t ==> (u.next != null) == (u in ring)
    {
      if t.next != null {
        ghost var j :| 0 <= j < |ring| && ring[j] == t;
        RemovedIsWithout(ring, j);
        WithoutMembers(ring, j);
        SelfLinked(ring, j);
        var next := t.next;
        if next != t {
          Bypass(t, next, ring, j);
          if timers == t {
            timers := next;
          }
        } else {
          timers := null;
        }
        ring := Without(ring, j);
      } else {
        RemovedIsSame(ring, t);
      }
    }

    // The unlinking of a timer that is not to look as if it were on the ring.
    method Detach(t: Timer)
      requires RingOk() && t in all
      modifies this`timers, this`ring, all`next, all`prev
      ensures RingOk() && ring == Removed(old(ring), t) && (t != old(timers) ==> timers == old(timers))
      ensures forall u :: u in ring <==> u in old(ring) && u != t
    {
      Unlink(t);
      t.next := null;
    }

    method DetachSet(t: Timer)
      requires RingOk() && t in all && forall u :: u in all ==> TimerOk(u)
      modifies this`timers, this`ring, all`next, all`prev
      ensures RingOk() && ring == Removed(old(ring), t) && t !in ring && forall u :: u in all ==> TimerOk(u)
    {
      Detach(t);
      forall u | u in all ensures TimerOk(u) {
        assert old(TimerOk(u));
      }
    }

    // timer_cancel
    method Cancel(t: Timer)
      requires Valid() && t in all
      modifies this`timers, this`ring, all`next, all`prev, t`fired, waker`threadWoken, waker`pipe
      ensures Valid() && waker.threadWoken
      ensures ring == Removed(old(ring), t) && t !in ring && !t.fired
    {
      DetachSet(t);
      waker.Wake();
      assert TimerOk(t);
      t.fired := false;
      assert forall u :: u in all ==> TimerOk(u);
    }

    method Forget(t: Timer)
      requires RingOk() && t in all && forall u :: u in all ==> TimerOk(u)
      modifies this`timers, this`ring, this`all, all`next, all`prev
      ensures RingOk() && ring == Removed(old(ring), t) && all == old(all) - {t} && forall u :: u in all ==> TimerOk(u)
    {
      Unlink(t);
      all := all - {t};
      forall u | u in all ensures TimerOk(u) {
        assert old(TimerOk(u));
      }
    }

    // timer_fini, after which t is not a timer any more; closing its wait list runs the tasklets on it
    method Fini(t: Timer)
      requires Valid() && t in all
      modifies this`timers, this`ring, this`all, all`next, all`prev, t`asleep, waker`threadWoken, waker`pipe
      ensures Valid() && waker.threadWoken
      ensures ring == Removed(old(ring), t) && all == old(all) - {t} && t.asleep == {}
    {
      Forget(t);
      waker.Wake();
      t.asleep := {};
    }

    // timer_init
    method Init() returns (t: Timer)
      requires Valid()
      modifies this`all
      ensures Valid() && fresh(t) && all == old(all) + {t}
    {
      t := new Timer();
      all := all + {t};
    }

    // timer_wait
    method Wait(t: Timer, tasklet: nat) returns (res: bool)
      requires Valid() && t in all
      modifies t`asleep
      ensures Valid() && res == t.fired
      ensures t.asleep == old(t.asleep) + (if res then {} else {tasklet})
    {
      res := true;
      if !t.fired {
        t.asleep := t.asleep + {tasklet};
        res := false;
      }
    }

    // What dispatch_timers does with a timer that is due, the one at position j.
    method Fire(t: Timer, next: Timer, ghost j: nat)
      requires RingOk() && j < |ring| && ring[j] == t && next == t.next
      requires forall u :: u in all ==> TimerOk(u)
      modifies this`timers, this`ring, all`next, all`prev, t`fired, t`asleep
      ensures forall u :: u in all ==> TimerOk(u)
      ensures RingOk() && ring == Removed(old(ring), t) && (j > 0 ==> timers == old(timers))
      ensures forall u :: u in ring <==> u in old(ring) && u != t
      ensures t.fired && t.asleep == {}
    {
      RemovedIsWithout(ring, j);
      t.fired := true;
      t.asleep := {};
      Detach(t);
      forall u | u in all ensures TimerOk(u) {
        assert old(TimerOk(u));
      }
    }

    // earliest_latest
    method EarliestLatest() returns (latest: int)
      requires RingOk()
      ensures latest == FirstLatest(ring)
    {
      if timers == null { return -1; }
      var t: Timer := timers;
      latest := t.latest;
      ghost var i := 0;
      assert ring[..1][..0] == [];
      while true
        invariant i < |ring| && t == ring[i] && latest == FirstLatest(ring[..i + 1])
        decreases |ring| - i
      {
        assert Edge(ring, i);
        t := t.next;
        if t == timers { break; }
        i := i + 1;
        assert ring[..i + 1][..i] == ring[..i];
        if t.latest < latest {
          latest := t.latest;
        }
      }
      assert ring[..i + 1] == ring;
    }

    // The poll thread works out how long to poll, and does so.
    method Sleep()
      requires Valid() && !waker.asleep
      modifies this`planned, waker`threadWoken, waker`asleep
      ensures Valid() && waker.asleep && !waker.threadWoken && planned == FirstLatest(ring)
    {
      planned := EarliestLatest();
      waker.Sleep();
    }

    // A sleeping thread that has not been woken has planned to be back when the first timer must
    // have fired, whatever has been set and cancelled meanwhile.
    lemma {:induction false} NeverOversleeps(t: Timer)
      requires Valid() && waker.asleep && t in ring
      ensures waker.pipe > 0 || 0 <= planned <= t.latest
    {
      FirstLatestIsLeast(ring);
    }

    // A pass at or after the planned time fires a timer, and leaves none whose latest time is past.
    lemma {:induction false} PassFires(now: nat)
      requires Valid() && ring != []
      ensures forall t :: t in ring && t.latest <= now ==> t !in Kept(ring, NotDue(ring, now))
      ensures FirstLatest(ring) <= now ==> exists t :: t in ring && t !in Kept(ring, NotDue(ring, now))
    {
      KeptMembers(ring, NotDue(ring, now));
      FirstLatestIsLeast(ring);
    }

    // The state of dispatch_timers when it has dealt with the first i timers of `was`: `before` are
    // those that had fired already.
    ghost predicate Scanning(was: seq<Timer>, i: nat, keep: set<Timer>, before: set<Timer>)
      reads this, ring, all
    {
      && RingOk() && (forall u :: u in all ==> TimerOk(u))
      && i <= |was| && ring == Scanned(was, i, keep)
      && (forall u :: u in all ==> (u.fired <==> u in before || (u in was && u !in ring)))
    }

    lemma {:induction false} NextInRing(was: seq<Timer>, i: nat, keep: set<Timer>) returns (k: nat)
      requires RingOk() && i < |was| && Distinct(was) && ring == Scanned(was, i, keep)
      ensures k < |ring| && ring[k] == was[i] && (timers == was[i] <==> k == 0)
      ensures i + 1 < |was| ==> was[i].next == was[i + 1]
      ensures was[i].next == was[i] <==> |ring| == 1
      ensures was[i].next == ring[0] <==> i + 1 == |was|
    {
      ScannedShape(was, i, keep);
      k := |Kept(was[..i], keep)|;
      assert Edge(ring, k);
      assert i + 1 < |was| ==> ring[k + 1] == was[i + 1];
    }

    // One turn of its loop; `again` says whether there is another.
    method Turn(
        t: Timer, now: nat, ghost was: seq<Timer>, ghost i: nat, ghost keep: set<Timer>, ghost before: set<Timer>)
      returns (next: Timer, again: bool)
      requires Scanning(was, i, keep, before) && i < |was| && t == was[i] && Distinct(was)
      requires t.earliest <= now <==> t !in keep
      modifies this`timers, this`ring, all`next, all`prev, all`fired, all`asleep
      ensures Scanning(was, i + 1, keep, before)
      ensures again == (i + 1 < |was|) && (again ==> next == was[i + 1])
    {
      ghost var k := NextInRing(was, i, keep);
      next := t.next;
      if t.earliest <= now {
        var head := timers == t;
        Fire(t, next, k);
        if next == t { return next, false; }
        if head { return next, true; }
      }
      again := next != timers;
    }

    method ScanAll(now: nat, ghost was: seq<Timer>, ghost keep: set<Timer>, ghost before: set<Timer>)
      requires Scanning(was, 0, keep, before) && was != [] && Distinct(was) && keep == NotDue(was, now)
      requires forall u :: u in was ==> u in all
      modifies this`timers, this`ring, all`next, all`prev, all`fired, all`asleep
      ensures Scanning(was, |was|, keep, before)
    {
      var t: Timer := timers;
      ghost var i := 0;
      var again := true;
      while again
        invariant i <= |was| && again == (i < |was|) && (again ==> t == was[i])
        invariant Scanning(was, i, keep, before) && keep == NotDue(was, now)
        decreases |was| - i
      {
        t, again := Turn(t, now, was, i, keep, before);
        i := i + 1;
      }
    }

    // dispatch_timers: the ring becomes its timers that are not due yet, and the others have fired.
    method Dispatch(now: nat)
      requires Valid() && !waker.asleep
      modifies this`timers, this`ring, all`next, all`prev, all`fired, all`asleep
      ensures Valid() && ring == Kept(old(ring), NotDue(old(ring), now))
      ensures forall t :: t in all ==> t.fired == (old(t.fired) || (t in old(ring) && t !in ring))
    {
      if timers == null { return; }
      ghost var was, keep := ring, NotDue(ring, now);
      ScanAll(now, was, keep, set t | t in all && t.fired);
      ScannedShape(was, |was|, keep);
      assert was[..|was|] == was;
    }
  }

  lemma {:induction false} SelfLinked(s: seq<Timer>, j: nat)
    requires j < |s| && Distinct(s) && Linked(s)
    ensures (s[j].next == s[j]) == (|s| == 1)
  {
    assert Edge(s, j);
  }

  // The links of a ring, written out.
  lemma {:induction false} Neighbours(s: seq<Timer>, j: nat)
    requires j < |s| && Distinct(s) && Linked(s)
    ensures s[j].next == s[Succ(j, |s|)] && s[j].prev == s[if j == 0 then |s| - 1 else j - 1]
    ensures forall i :: 0 <= i < |s| ==> s[i].next == s[Succ(i, |s|)] && s[Succ(i, |s|)].prev == s[i]
  {
    forall i | 0 <= i < |s| ensures s[i].next == s[Succ(i, |s|)] && s[Succ(i, |s|)].prev == s[i] {
      assert Edge(s, i);
    }
    assert Edge(s, if j == 0 then |s| - 1 else j - 1);
  }

  lemma {:induction false} Unrolled(s: seq<Timer>)
    requires s != [] && Linked(s)
    ensures s[|s| - 1].next == s[0] && s[0].prev == s[|s| - 1]
    ensures forall i :: 0 <= i < |s| - 1 ==> s[i].next == s[i + 1] && s[i + 1].prev == s[i]
  {
    assert Edge(s, |s| - 1);
    forall i | 0 <= i < |s| - 1 ensures s[i].next == s[i + 1] && s[i + 1].prev == s[i] {
      assert Edge(s, i);
    }
  }

  lemma {:induction false} Appended(s: seq<Timer>, t: Timer)
    requires s != [] && t !in s && Distinct(s)
    requires t.next == s[0] && t.prev == s[|s| - 1] && s[0].prev == t && s[|s| - 1].next == t
    requires forall i :: 0 <= i < |s| - 1 ==> s[i].next == s[i + 1] && s[i + 1].prev == s[i]
    ensures Linked(s + [t])
  {
    forall i | 0 <= i < |s| + 1 ensures Edge(s + [t], i) {
      if i < |s| - 1 { assert (s + [t])[i + 1] == s[i + 1]; }
    }
  }
}
