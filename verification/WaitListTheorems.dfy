/** What the wait-list protocol guarantees over whole runs. */
module WaitListTheorems {
  import opened Options
  import opened WaitLists
  import opened WaitListInvariant

  datatype Move = Move(th: nat, a: Call)

  ghost predicate Feasible(s: Lists, moves: seq<Move>)
    decreases |moves|
  {
    moves == [] ||
    (Allowed(s, moves[0].th, moves[0].a) && Feasible(Perform(s, moves[0].th, moves[0].a), moves[1..]))
  }

  ghost function Then(s: Lists, moves: seq<Move>): Lists
    requires Feasible(s, moves)
    decreases |moves|
  {
    if moves == [] then s else Then(Perform(s, moves[0].th, moves[0].a), moves[1..])
  }

  // Reference conservation, for every interleaving: the list's count and the counts of the tasklets
  // linked on it add up to the number of threads on their way to recheck a tasklet against it.
  lemma {:induction false} Conservation(s: Lists, moves: seq<Move>, w: nat)
    requires Sound(s) && Feasible(s, moves)
    ensures Sound(Then(s, moves))
    ensures var e := Then(s, moves);
            e.lists(w).unwaiting + Sum(e.waiters, e.lists(w).ring) == Count(e, w, e.n)
    decreases |moves|
  {
    if moves == [] {
      assert ListOk(s, w);
    } else {
      PerformKeeps(s, moves[0].th, moves[0].a);
      Conservation(Perform(s, moves[0].th, moves[0].a), moves[1..], w);
    }
  }

  // A tasklet that is on no list is not being run on behalf of any list.
  lemma {:induction false} NotRunByLists(s: Lists, t: nat, th: nat)
    requires Sound(s) && s.waiters(t).wait == None
    ensures s.clients(th).running != Some(t)
  {
    assert ClientOk(s, th);
    var x := s.clients(th);
    if x.running.Some? { assert ListOk(s, if x.unwait.UnwaitDone? then x.unwait.w else x.op.w); }
  }

  // ---------------------------------------------------------------- closing a list

  // The callers of one tasklet are serialised, as its mutex does for callers that hold it.
  ghost predicate SerialOk(s: Lists, a: nat, b: nat) {
    a != b && Target(s.clients(a)) != None ==> Target(s.clients(a)) != Target(s.clients(b))
  }

  ghost predicate SerialCall(s: Lists, th: nat, a: Call) {
    (a.CallWait? || a.CallUnwait?) ==> forall k: nat :: Target(s.clients(k)) != Some(a.t)
  }

  // The closer of w has found tasklets on it, and is not done.
  predicate Detaches(x: Client, w: nat) {
    (x.op.CloseRun? || x.op.CloseDetach? || x.op.CloseAwait?) && x.op.w == w
  }

  // A thread on its way to w has a reason to find w alive: its tasklet is still linked, or the
  // closer of w is waiting for it.
  ghost predicate ReachOk(s: Lists, th: nat) {
    var u := s.clients(th).unwait;
    u.UnwaitWantList? || u.UnwaitHeld? ==>
      s.waiters(u.t).wait == Some(u.w) || exists k: nat :: Detaches(s.clients(k), u.w)
  }

  // The thread is inside a critical section of w, on its way to one, or in a call on w.
  predicate Touches(x: Client, w: nat) {
    Uses(x, w) || ((x.unwait.UnwaitWantList? || x.unwait.UnwaitHeld? || x.unwait.UnwaitDone?) && x.unwait.w == w)
  }

  ghost predicate ClosedOk(s: Lists, w: nat, th: nat) {
    s.lists(w).phase == Closed ==> !Touches(s.clients(th), w)
  }

  // A tasklet whose tasklet_unwait is over is on no list.
  ghost predicate UnwaitedOk(s: Lists, th: nat) {
    var x := s.clients(th);
    (x.op.WaitRetry? || x.op.Unwaiting?) && (x.unwait.NoUnwait? || x.unwait.UnwaitDone?) ==>
      s.waiters(x.op.t).wait == None
  }

  ghost predicate Serial(s: Lists) {
    && (forall th: nat :: UnwaitedOk(s, th))
    && (forall a: nat, b: nat :: SerialOk(s, a, b))
    && (forall th: nat :: ReachOk(s, th))
    && (forall w: nat, th: nat :: ClosedOk(s, w, th))
  }

  // When a list is given back, nobody is on the way to it.
  lemma {:induction false} NobodyRegistered(s: Lists, w: nat, th: nat)
    requires Sound(s) && s.lists(w).ring == [] && s.lists(w).unwaiting == 0
    ensures !Registered(s.clients(th), w)
  {
    assert ListOk(s, w) && ClientOk(s, th);
    if Registered(s.clients(th), w) { CountZero(s, w, th, s.n); }
  }

  // So a list on the way to which somebody is has not just been given back by Detach or CloseWake.
  lemma {:induction false} NobodyRegisteredAfter(s: Lists, w: nat, th: nat)
    requires Sound(s) && Registered(s.clients(th), w)
    ensures s.lists(w).ring != [] || s.lists(w).unwaiting != 0
  {
    if s.lists(w).ring == [] && s.lists(w).unwaiting == 0 { NobodyRegistered(s, w, th); }
  }

  lemma {:induction false} CountFinds(s: Lists, w: nat, n: nat) returns (k: nat)
    requires Count(s, w, n) > 0
    ensures k < n && Registered(s.clients(k), w)
  {
    if Registered(s.clients(n - 1), w) { k := n - 1; } else { k := CountFinds(s, w, n - 1); }
  }

  ghost predicate Unreached(s: Lists, w: nat) {
    forall k: nat :: !Touches(s.clients(k), w)
  }

  // Whoever the callers are, and however they are serialised: the step by which wait_list_fini gives w
  // back leaves no thread in w or on its way to it if and only if the list has no references left.
  lemma {:induction false} GivenBackSafely(s: Lists, th: nat, a: Call, w: nat)
    requires Sound(s) && Allowed(s, th, a)
    requires s.lists(w).phase != Closed && Perform(s, th, a).lists(w).phase == Closed
    ensures var s' := Perform(s, th, a); Unreached(s', w) <==> s'.lists(w).unwaiting == 0
  {
    var s' := Perform(s, th, a);
    PerformKeeps(s, th, a);
    assert ListOk(s', w) && ClientOk(s, th);
    if s'.lists(w).unwaiting == 0 {
      forall k: nat ensures !Touches(s'.clients(k), w) {
        NobodyRegistered(s', w, k);
        NotInside(s, th, a, w, k);
      }
    } else {
      var k := CountFinds(s', w, s'.n);
      assert Touches(s'.clients(k), w);
    }
  }

  lemma {:induction false} NotInside(s: Lists, th: nat, a: Call, w: nat, k: nat)
    requires Sound(s) && Allowed(s, th, a)
    requires s.lists(w).phase != Closed && Perform(s, th, a).lists(w).phase == Closed
    ensures Touches(Perform(s, th, a).clients(k), w) ==> Registered(Perform(s, th, a).clients(k), w)
  {
    assert ClientOk(s, th) && ClientOk(s, k) && ApartOk(s, th, k) && ListOk(s, w);
    assert a.LockList? || a.CloseWake? ==> !HoldsList(s.clients(k), w);
  }

  // The branch that skips the wait, taken for an empty list, is safe exactly when the count that it does
  // not look at is zero.
  lemma {:induction false} EmptyGivenBackSafely(s: Lists, th: nat, w: nat)
    requires Sound(s) && Allowed(s, th, LockList) && s.clients(th).op == CloseWant(w) && s.lists(w).ring == []
    ensures Perform(s, th, LockList).lists(w).phase == Closed
    ensures Unreached(Perform(s, th, LockList), w) <==> s.lists(w).unwaiting == 0
  {
    assert ClientOk(s, th) && ListOk(s, w);
    GivenBackSafely(s, th, LockList, w);
  }

  // A step changes nothing of the other threads, but that it may signal a closer.
  lemma {:induction false} OthersMove(s: Lists, th: nat, a: Call, k: nat)
    requires Allowed(s, th, a) && k != th
    ensures var x, y := s.clients(k), Perform(s, th, a).clients(k);
            y == x || (x.op.CloseAwait? && y == x.(op := CloseAwait(x.op.w, true)))
  {
  }

  // Another thread's step leaves the ring of a held list as it is.
  lemma {:induction false} HeldRingStays(s: Lists, th: nat, a: Call, k: nat)
    requires Sound(s) && Allowed(s, th, a) && k != th && HoldsSomeList(s.clients(k))
    ensures Perform(s, th, a).lists(HeldList(s.clients(k))).ring == s.lists(HeldList(s.clients(k))).ring
  {
    assert ApartOk(s, th, k) && ClientOk(s, th) && ClientOk(s, k);
  }

  lemma {:induction false} OwnTarget(s: Lists, th: nat, a: Call)
    requires Sound(s) && Allowed(s, th, a) && !a.CallWait? && !a.CallUnwait?
    ensures var t := Target(Perform(s, th, a).clients(th));
            t == None || t == Target(s.clients(th))
  {
    assert ClientOk(s, th);
  }

  lemma {:induction false} SerialPairs(s: Lists, th: nat, a: Call, i: nat, j: nat)
    requires Sound(s) && Serial(s) && Allowed(s, th, a) && SerialCall(s, th, a)
    ensures SerialOk(Perform(s, th, a), i, j)
  {
    assert SerialOk(s, i, j);
    if i != th { OthersMove(s, th, a, i); }
    if j != th { OthersMove(s, th, a, j); }
    if !a.CallWait? && !a.CallUnwait? { OwnTarget(s, th, a); }
  }

  lemma {:induction false} DetachReach(s: Lists, th: nat, k: nat)
    requires Sound(s) && Serial(s) && Allowed(s, th, Detach)
    ensures ReachOk(Perform(s, th, Detach), k)
  {
    var s' := Perform(s, th, Detach);
    var u := s.clients(k).unwait;
    var w := s.clients(th).op.w;
    assert ClientOk(s, th) && ClientOk(s, k) && ReachOk(s, k) && ListOk(s, w);
    PerformKeeps(s, th, Detach);
    if u.UnwaitWantList? || u.UnwaitHeld? {
      NobodyRegisteredAfter(s', u.w, k);
      if u.w == w {
        assert Detaches(s'.clients(th), w);
      } else if s.waiters(u.t).wait != Some(u.w) {
        var d: nat :| Detaches(s.clients(d), u.w);
        assert Detaches(s'.clients(d), u.w);
      }
    }
  }

  lemma {:induction false} CloseWakeReach(s: Lists, th: nat, k: nat)
    requires Sound(s) && Serial(s) && Allowed(s, th, CloseWake)
    ensures ReachOk(Perform(s, th, CloseWake), k)
  {
    var s' := Perform(s, th, CloseWake);
    var u := s.clients(k).unwait;
    assert ClientOk(s, th) && ReachOk(s, k) && ListOk(s, s.clients(th).op.w);
    if u.UnwaitWantList? || u.UnwaitHeld? {
      NobodyRegisteredAfter(s, u.w, k);
      if s.waiters(u.t).wait != Some(u.w) {
        var d: nat :| Detaches(s.clients(d), u.w);
        assert Detaches(s'.clients(d), u.w);
      }
    }
  }

  lemma {:induction false} OwnReach(s: Lists, th: nat, a: Call)
    requires Sound(s) && Serial(s) && Allowed(s, th, a) && !a.Detach? && !a.CloseWake?
    ensures ReachOk(Perform(s, th, a), th)
  {
    var s' := Perform(s, th, a);
    var u := s'.clients(th).unwait;
    assert ReachOk(s, th) && ClientOk(s, th);
    if (u.UnwaitWantList? || u.UnwaitHeld?) && s.waiters(u.t).wait != Some(u.w) {
      var d: nat :| Detaches(s.clients(d), u.w);
      assert Detaches(s'.clients(d), u.w);
    }
  }

  lemma {:induction false} SerialReach(s: Lists, th: nat, a: Call, k: nat)
    requires Sound(s) && Serial(s) && Allowed(s, th, a) && !a.Detach? && !a.CloseWake? && k != th
    ensures ReachOk(Perform(s, th, a), k)
  {
    var s' := Perform(s, th, a);
    var u := s'.clients(k).unwait;
    assert ReachOk(s, k);
    if u.UnwaitWantList? || u.UnwaitHeld? {
      if s.waiters(u.t).wait != Some(u.w) {
        var d: nat :| Detaches(s.clients(d), u.w);
        assert Detaches(s'.clients(d), u.w);
      } else if a.UnwaitRemove? {
        assert ClientOk(s, th) && ClientOk(s, k) && SerialOk(s, k, th);
      }
    }
  }

  // The crux: an empty list may be given back at once, although wait_list_fini then waits for nobody.
  lemma {:induction false} EmptyUnreached(s: Lists, th: nat, w: nat, k: nat)
    requires Sound(s) && Serial(s) && s.clients(th).op == CloseWant(w) && s.lists(w).ring == []
    ensures !Registered(s.clients(k), w)
  {
    assert ReachOk(s, k) && ListOk(s, w);
    var u := s.clients(k).unwait;
    if Registered(s.clients(k), w) {
      assert WaiterOk(s, u.t);
      forall d: nat ensures !Detaches(s.clients(d), w) { assert ApartOk(s, th, d); }
    }
  }

  lemma {:induction false} StaysClosed(s: Lists, th: nat, a: Call, w: nat, k: nat)
    requires Sound(s) && Allowed(s, th, a) && s.lists(w).phase == Closed && !Touches(s.clients(k), w)
    ensures !Touches(Perform(s, th, a).clients(k), w)
  {
    assert ClientOk(s, th);
    if a.UnwaitLook? { assert ListOk(s, w) && WaiterOk(s, s.clients(th).unwait.t); }
  }

  lemma {:induction false} BecomesClosed(s: Lists, th: nat, a: Call, w: nat, k: nat)
    requires Sound(s) && Serial(s) && Allowed(s, th, a)
    requires s.lists(w).phase != Closed && Perform(s, th, a).lists(w).phase == Closed
    ensures !Touches(Perform(s, th, a).clients(k), w)
  {
    var s' := Perform(s, th, a);
    assert ClientOk(s, th) && ApartOk(s, th, k) && ListOk(s, w);
    if a.LockList? {
      EmptyUnreached(s, th, w, k);
      assert !HoldsList(s.clients(k), w);
    } else {
      PerformKeeps(s, th, a);
      NobodyRegistered(s', w, k);
      assert a.CloseWake? ==> !HoldsList(s.clients(k), w);
    }
  }

  lemma {:induction false} SerialUnwaited(s: Lists, th: nat, a: Call, k: nat)
    requires Sound(s) && Serial(s) && Allowed(s, th, a) && SerialCall(s, th, a)
    ensures UnwaitedOk(Perform(s, th, a), k)
  {
    assert ClientOk(s, th) && UnwaitedOk(s, k) && SerialOk(s, k, th);
  }

  lemma {:induction false} SerialKept(s: Lists, th: nat, a: Call)
    requires Sound(s) && Serial(s) && Allowed(s, th, a) && SerialCall(s, th, a)
    ensures Serial(Perform(s, th, a))
  {
    var s' := Perform(s, th, a);
    forall k: nat ensures UnwaitedOk(s', k) { SerialUnwaited(s, th, a, k); }
    forall i: nat, j: nat ensures SerialOk(s', i, j) { SerialPairs(s, th, a, i, j); }
    forall k: nat ensures ReachOk(s', k) {
      if a.Detach? { DetachReach(s, th, k); }
      else if a.CloseWake? { CloseWakeReach(s, th, k); }
      else if k == th { OwnReach(s, th, a); }
      else { SerialReach(s, th, a, k); }
    }
    forall w: nat, k: nat ensures ClosedOk(s', w, k) {
      assert ClosedOk(s, w, k);
      if s.lists(w).phase == Closed { StaysClosed(s, th, a, w, k); }
      else if s'.lists(w).phase == Closed { BecomesClosed(s, th, a, w, k); }
    }
  }

  ghost predicate AllSerial(s: Lists, moves: seq<Move>)
    requires Feasible(s, moves)
    decreases |moves|
  {
    moves == [] ||
    (SerialCall(s, moves[0].th, moves[0].a) && AllSerial(Perform(s, moves[0].th, moves[0].a), moves[1..]))
  }

  ghost predicate Untouched(s: Lists, w: nat) {
    && (forall th: nat :: !Touches(s.clients(th), w))
    && (forall t: nat :: s.waiters(t).wait != Some(w))
  }

  lemma {:induction false} ClosedNow(s: Lists, w: nat)
    requires Sound(s) && Serial(s)
    ensures s.lists(w).phase == Closed ==> Untouched(s, w)
  {
    if s.lists(w).phase == Closed {
      forall th: nat ensures !Touches(s.clients(th), w) { assert ClosedOk(s, w, th); }
      forall t: nat ensures s.waiters(t).wait != Some(w) { assert ListOk(s, w) && WaiterOk(s, t); }
    }
  }

  // With serialised callers, once wait_list_fini gives w back no thread is in w, on its way to w, or
  // linked on it, and none ever gets there again.
  lemma {:induction false} ClosedUntouched(s: Lists, moves: seq<Move>, w: nat)
    requires Sound(s) && Serial(s) && Feasible(s, moves) && AllSerial(s, moves)
    ensures var e := Then(s, moves);
            e.lists(w).phase == Closed ==> Untouched(e, w)
    decreases |moves|
  {
    if moves == [] {
      ClosedNow(s, w);
    } else {
      PerformKeeps(s, moves[0].th, moves[0].a);
      SerialKept(s, moves[0].th, moves[0].a);
      ClosedUntouched(Perform(s, moves[0].th, moves[0].a), moves[1..], w);
    }
  }

  // The moves of which one gives w back with references left.
  ghost predicate GivesBackInUse(s: Lists, moves: seq<Move>, w: nat)
    requires Feasible(s, moves)
    decreases |moves|
  {
    moves != [] &&
      var s1 := Perform(s, moves[0].th, moves[0].a);
      || (s.lists(w).phase != Closed && s1.lists(w).phase == Closed && s1.lists(w).unwaiting != 0)
      || GivesBackInUse(s1, moves[1..], w)
  }

  // The moves after some of which a thread is in w, or on its way to it, although w has been given back.
  ghost predicate TouchesClosed(s: Lists, moves: seq<Move>, w: nat)
    requires Feasible(s, moves)
    decreases |moves|
  {
    || (s.lists(w).phase == Closed && !Unreached(s, w))
    || (moves != [] && TouchesClosed(Perform(s, moves[0].th, moves[0].a), moves[1..], w))
  }

  // Over every run, serialised callers or not: a list is touched after it has been given back if and only
  // if it was given back with references left.
  lemma {:induction false} TouchedIffInUse(s: Lists, moves: seq<Move>, w: nat)
    requires Sound(s) && Feasible(s, moves) && (s.lists(w).phase == Closed ==> Unreached(s, w))
    ensures TouchesClosed(s, moves, w) <==> GivesBackInUse(s, moves, w)
    decreases |moves|
  {
    if moves != [] {
      var th, a := moves[0].th, moves[0].a;
      var s1 := Perform(s, th, a);
      PerformKeeps(s, th, a);
      if s.lists(w).phase == Closed {
        ClosedForGood(s, th, a, w);
        forall k: nat ensures !Touches(s1.clients(k), w) { StaysClosed(s, th, a, w, k); }
      } else if s1.lists(w).phase == Closed {
        GivenBackSafely(s, th, a, w);
      }
      if s1.lists(w).phase != Closed || Unreached(s1, w) {
        TouchedIffInUse(s1, moves[1..], w);
      }
    }
  }

  lemma {:induction false} ClosedForGood(s: Lists, th: nat, a: Call, w: nat)
    requires Sound(s) && Allowed(s, th, a) && s.lists(w).phase == Closed && Unreached(s, w)
    ensures Perform(s, th, a).lists(w).phase == Closed
  {
    assert ClientOk(s, th) && !Touches(s.clients(th), w) && ListOk(s, w);
  }

  // ---------------------------------------------------------------- the semaphore

  // What a move takes out of, or puts into, the semaphore w: an up, or a down that reports success.
  ghost function Upped(s: Lists, m: Move, w: nat): nat
    requires Allowed(s, m.th, m.a)
  {
    var op := s.clients(m.th).op;
    if m.a.LockList? && op.UpWant? && op.w == w then op.n else 0
  }

  ghost function Downed(s: Lists, m: Move, w: nat): nat
    requires Allowed(s, m.th, m.a)
  {
    var op := Perform(s, m.th, m.a).clients(m.th).op;
    if m.a.LockWait? && op.WaitBoth? && op.got && op.w == w && op.need.Some? then op.need.value else 0
  }

  ghost predicate SetsCount(s: Lists, m: Move, w: nat) {
    var op := s.clients(m.th).op;
    m.a.LockList? && op.SetWant? && op.w == w && op.count.Some?
  }

  ghost function Ups(s: Lists, moves: seq<Move>, w: nat): nat
    requires Feasible(s, moves)
    decreases |moves|
  {
    if moves == [] then 0
    else Upped(s, moves[0], w) + Ups(Perform(s, moves[0].th, moves[0].a), moves[1..], w)
  }

  ghost function Downs(s: Lists, moves: seq<Move>, w: nat): nat
    requires Feasible(s, moves)
    decreases |moves|
  {
    if moves == [] then 0
    else Downed(s, moves[0], w) + Downs(Perform(s, moves[0].th, moves[0].a), moves[1..], w)
  }

  ghost predicate NeverSet(s: Lists, moves: seq<Move>, w: nat)
    requires Feasible(s, moves)
    decreases |moves|
  {
    moves == [] || (!SetsCount(s, moves[0], w) && NeverSet(Perform(s, moves[0].th, moves[0].a), moves[1..], w))
  }

  lemma {:induction false} CountMove(s: Lists, m: Move, w: nat)
    requires Allowed(s, m.th, m.a) && !SetsCount(s, m, w)
    ensures Perform(s, m.th, m.a).lists(w).upCount == s.lists(w).upCount + Upped(s, m, w) - Downed(s, m, w)
    ensures Downed(s, m, w) > 0 ==> Perform(s, m.th, m.a).lists(w).upCount >= 0
  {}

  // Units are neither made nor lost: the count is the initial count plus the ups less the successful
  // downs, whatever else happens on the list, and it never falls below zero.
  lemma {:induction false} SemaphoreLedger(s: Lists, moves: seq<Move>, w: nat)
    requires Feasible(s, moves) && NeverSet(s, moves, w)
    ensures Then(s, moves).lists(w).upCount == s.lists(w).upCount + Ups(s, moves, w) - Downs(s, moves, w)
    ensures s.lists(w).upCount >= 0 ==> Then(s, moves).lists(w).upCount >= 0
    decreases |moves|
  {
    if moves != [] {
      CountMove(s, moves[0], w);
      SemaphoreLedger(Perform(s, moves[0].th, moves[0].a), moves[1..], w);
    }
  }

  // A call that neither got its units nor has to be retried leaves its tasklet linked on the list;
  // and the units are refused only when they are not there.
  lemma {:induction false} RefusedIsLinked(s: Lists, th: nat)
    requires Sound(s) && Allowed(s, th, LockWait)
    ensures var s' := Perform(s, th, LockWait);
            var op := s'.clients(th).op;
            !op.retry && !op.got ==>
              && op.t in s'.lists(op.w).ring && s'.waiters(op.t).wait == Some(op.w)
              && (op.need.Some? ==> s'.lists(op.w).upCount < op.need.value)
  {
    var op := s.clients(th).op;
    PerformKeeps(s, th, LockWait);
    assert WaiterOk(Perform(s, th, LockWait), op.t);
  }
}
