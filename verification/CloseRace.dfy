/** Why callers on one tasklet must be serialised: without that, wait_list_fini may give back a list
    to which a tasklet_unwait is still on its way, because it does not wait when the list is empty. */
module CloseRace {
  import opened Options
  import opened RunQueues
  import opened WaitLists
  import opened WaitListTheorems

  ghost predicate Reaches(s: Lists, s': Lists) {
    exists moves: seq<Move> :: Feasible(s, moves) && Then(s, moves) == s'
  }

  lemma {:induction false} AppendMove(s: Lists, moves: seq<Move>, m: Move)
    requires Feasible(s, moves) && Allowed(Then(s, moves), m.th, m.a)
    ensures Feasible(s, moves + [m]) && Then(s, moves + [m]) == Perform(Then(s, moves), m.th, m.a)
    decreases |moves|
  {
    if moves == [] {
      assert moves + [m] == [m] && [m][1..] == [];
    } else {
      AppendMove(Perform(s, moves[0].th, moves[0].a), moves[1..], m);
      assert (moves + [m])[1..] == moves[1..] + [m];
    }
  }

  lemma {:induction false} Extend(s: Lists, m: Lists, th: nat, a: Call)
    requires Reaches(s, m) && Allowed(m, th, a)
    ensures Reaches(s, Perform(m, th, a))
  {
    var moves: seq<Move> :| Feasible(s, moves) && Then(s, moves) == m;
    AppendMove(s, moves, Move(th, a));
  }

  ghost function InitialLists(): Lists {
    Lists(4, (th: nat) => Client(Idle, NoUnwait, None), (t: nat) => Waiter(None, 0),
          (w: nat) => WaitList([], 0, 0, Open))
  }

  ghost predicate IdleBut(s: Lists, used: set<nat>) {
    s.n == 4 && forall k: nat :: k !in used ==> s.clients(k) == Client(Idle, NoUnwait, None)
  }

  // Thread 0, about to put tasklet 0 on list 0, has locked the list.
  lemma {:induction false} Held() returns (s: Lists)
    ensures Reaches(InitialLists(), s) && IdleBut(s, {0})
    ensures s.clients(0) == Client(WaitHeld(0, 0, None), NoUnwait, None)
    ensures s.waiters(0) == Waiter(None, 0) && s.lists(0) == WaitList([], 0, 0, Open)
  {
    var s0 := InitialLists();
    assert Feasible(s0, []) && Then(s0, []) == s0;
    var s1 := Perform(s0, 0, CallWait(0, 0, None));
    Extend(s0, s0, 0, CallWait(0, 0, None));
    s := Perform(s1, 0, LockList);
    Extend(s0, s1, 0, LockList);
  }

  // It does so.
  lemma {:induction false} Linked() returns (s: Lists)
    ensures Reaches(InitialLists(), s) && IdleBut(s, {})
    ensures s.waiters(0) == Waiter(Some(0), 0) && s.lists(0) == WaitList([0], 0, 0, Open)
  {
    var s0 := InitialLists();
    var s2 := Held();
    var s3 := Perform(s2, 0, LockWait);
    Extend(s0, s2, 0, LockWait);
    s := Perform(s3, 0, Unlocking);
    Extend(s0, s3, 0, Unlocking);
  }

  // Thread 1 begins to take it off.
  lemma {:induction false} OneUnwaiter() returns (s: Lists)
    ensures Reaches(InitialLists(), s) && IdleBut(s, {1, 2})
    ensures s.clients(1) == Client(Unwaiting(0), UnwaitWantList(0, 0), None)
    ensures s.clients(2) == Client(Idle, NoUnwait, None)
    ensures s.waiters(0) == Waiter(Some(0), 1) && s.lists(0) == WaitList([0], 0, 0, Open)
  {
    var s0 := InitialLists();
    var s4 := Linked();
    assert s4.clients(1) == Client(Idle, NoUnwait, None) && s4.clients(2) == s4.clients(1);
    var s5 := Perform(s4, 1, CallUnwait(0));
    Extend(s0, s4, 1, CallUnwait(0));
    var s6 := Perform(s5, 1, UnwaitLock);
    Extend(s0, s5, 1, UnwaitLock);
    s := Perform(s6, 1, UnwaitLook);
    Extend(s0, s6, 1, UnwaitLook);
  }

  // Thread 2 does so as well.
  lemma {:induction false} TwoUnwaiters() returns (s: Lists)
    ensures Reaches(InitialLists(), s) && IdleBut(s, {1, 2})
    ensures s.clients(1) == Client(Unwaiting(0), UnwaitWantList(0, 0), None)
    ensures s.clients(2) == Client(Unwaiting(0), UnwaitWantList(0, 0), None)
    ensures s.waiters(0) == Waiter(Some(0), 2) && s.lists(0) == WaitList([0], 0, 0, Open)
  {
    var s0 := InitialLists();
    var s7 := OneUnwaiter();
    var s8 := Perform(s7, 2, CallUnwait(0));
    Extend(s0, s7, 2, CallUnwait(0));
    var s9 := Perform(s8, 2, UnwaitLock);
    Extend(s0, s8, 2, UnwaitLock);
    s := Perform(s9, 2, UnwaitLook);
    Extend(s0, s9, 2, UnwaitLook);
  }

  // Thread 2 locks the list and takes the tasklet off it.
  lemma {:induction false} LockedByTwo() returns (s: Lists)
    ensures Reaches(InitialLists(), s) && IdleBut(s, {1, 2})
    ensures s.clients(1) == Client(Unwaiting(0), UnwaitWantList(0, 0), None)
    ensures s.clients(2) == Client(Unwaiting(0), UnwaitHeld(0, 0), None)
    ensures s.waiters(0) == Waiter(Some(0), 2) && s.lists(0) == WaitList([0], 0, 0, Open)
  {
    var s10 := TwoUnwaiters();
    s := Perform(s10, 2, UnwaitLockList);
    Extend(InitialLists(), s10, 2, UnwaitLockList);
  }

  lemma {:induction false} Removed() returns (s: Lists)
    ensures Reaches(InitialLists(), s) && IdleBut(s, {1, 2})
    ensures s.clients(1) == Client(Unwaiting(0), UnwaitWantList(0, 0), None)
    ensures s.clients(2) == Client(Unwaiting(0), UnwaitDone(0, 0), None)
    ensures s.lists(0) == WaitList([], 1, 0, Open)
  {
    var s0 := InitialLists();
    var s11 := LockedByTwo();
    assert Unlinked([0], 0) == [];
    s := Perform(s11, 2, UnwaitRemove);
    Extend(s0, s11, 2, UnwaitRemove);
  }

  lemma {:induction false} OneLeft() returns (s: Lists)
    ensures Reaches(InitialLists(), s) && IdleBut(s, {1})
    ensures s.clients(1) == Client(Unwaiting(0), UnwaitWantList(0, 0), None)
    ensures s.lists(0) == WaitList([], 1, 0, Open)
  {
    var s0 := InitialLists();
    var s12 := Removed();
    var s13 := Perform(s12, 2, Unlocking);
    Extend(s0, s12, 2, Unlocking);
    s := Perform(s13, 2, EndUnwait);
    Extend(s0, s13, 2, EndUnwait);
  }

  // Thread 3 closes the list; thread 1 is left about to lock a mutex in it.
  lemma {:induction false} ClosedUnderUnwait() returns (s: Lists)
    ensures Reaches(InitialLists(), s)
    ensures s.lists(0).phase == Closed && Touches(s.clients(1), 0) && s.clients(1).unwait == UnwaitWantList(0, 0)
  {
    var s0 := InitialLists();
    var s14 := OneLeft();
    assert s14.clients(3) == Client(Idle, NoUnwait, None);
    forall k: nat ensures !Uses(s14.clients(k), 0) { assert k != 1 ==> s14.clients(k) == Client(Idle, NoUnwait, None); }
    var s15 := Perform(s14, 3, CallClose(0));
    Extend(s0, s14, 3, CallClose(0));
    forall k: nat ensures !HoldsList(s15.clients(k), 0) {
      assert k !in {1, 3} ==> s15.clients(k) == Client(Idle, NoUnwait, None);
    }
    s := Perform(s15, 3, LockList);
    Extend(s0, s15, 3, LockList);
  }
}
