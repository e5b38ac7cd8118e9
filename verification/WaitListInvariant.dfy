/** What every step of the wait-list protocol keeps, and in particular the conservation of the
    reference counts that let wait_list_fini wait for the last tasklet_unwait. */
module WaitListInvariant {
  import opened Options
  import opened Rings
  import opened Tables
  import opened RunQueues
  import opened RunQueueInvariant
  import opened WaitLists

  // ---------------------------------------------------------------- counting

  // A thread between dropping a tasklet's wait mutex and rechecking its `wait` against w.
  predicate Registered(x: Client, w: nat) {
    (x.unwait.UnwaitWantList? || x.unwait.UnwaitHeld?) && x.unwait.w == w
  }

  ghost function Count(s: Lists, w: nat, n: nat): nat {
    if n == 0 then 0 else Count(s, w, n - 1) + (if Registered(s.clients(n - 1), w) then 1 else 0)
  }

  ghost function Sum(waiters: Table<Waiter>, ring: seq<nat>): int {
    if ring == [] then 0 else waiters(ring[0]).unwaiting + Sum(waiters, ring[1..])
  }

  lemma {:induction false} SumSame(f: Table<Waiter>, g: Table<Waiter>, ring: seq<nat>)
    requires forall t: nat :: t in ring ==> f(t).unwaiting == g(t).unwaiting
    ensures Sum(f, ring) == Sum(g, ring)
  {
    if ring != [] {
      assert ring[0] in ring;
      assert forall t: nat :: t in ring[1..] ==> t in ring;
      SumSame(f, g, ring[1..]);
    }
  }

  lemma {:induction false} SumSnoc(f: Table<Waiter>, ring: seq<nat>, t: nat)
    ensures Sum(f, ring + [t]) == Sum(f, ring) + f(t).unwaiting
  {
    if ring == [] {
      assert ring + [t] == [t] && [t][1..] == [];
    } else {
      SumSnoc(f, ring[1..], t);
      assert (ring + [t])[1..] == ring[1..] + [t];
    }
  }

  lemma {:induction false} SumUnlinked(f: Table<Waiter>, ring: seq<nat>, t: nat)
    requires t in ring
    ensures Sum(f, Unlinked(ring, t)) == Sum(f, ring) - f(t).unwaiting
  {
    if ring[0] != t {
      SumUnlinked(f, ring[1..], t);
      assert ([ring[0]] + Unlinked(ring[1..], t))[1..] == Unlinked(ring[1..], t);
    }
  }

  // Raising one member's count by d raises the sum by d.
  lemma {:induction false} SumRaise(f: Table<Waiter>, g: Table<Waiter>, ring: seq<nat>, t: nat, d: int)
    requires Distinct(ring) && t in ring
    requires g(t).unwaiting == f(t).unwaiting + d
    requires forall u: nat :: u != t ==> g(u).unwaiting == f(u).unwaiting
    ensures Sum(g, ring) == Sum(f, ring) + d
  {
    DistinctTail(ring);
    if ring[0] == t { SumSame(f, g, ring[1..]); } else { SumRaise(f, g, ring[1..], t, d); }
  }

  // A step of thread th changes the count by what happens to th alone.
  lemma {:induction false} CountStep(s: Lists, s': Lists, w: nat, th: nat, n: nat)
    requires forall k: nat :: k != th ==> Registered(s'.clients(k), w) == Registered(s.clients(k), w)
    ensures Count(s', w, n) == Count(s, w, n)
              + (if th < n && Registered(s'.clients(th), w) then 1 else 0)
              - (if th < n && Registered(s.clients(th), w) then 1 else 0)
  {
    if n != 0 { CountStep(s, s', w, th, n - 1); }
  }

  lemma {:induction false} CountZero(s: Lists, w: nat, th: nat, n: nat)
    requires th < n && Registered(s.clients(th), w)
    ensures Count(s, w, n) > 0
  {
    if th != n - 1 { CountZero(s, w, th, n - 1); }
  }

  // ---------------------------------------------------------------- the invariant

  ghost predicate ListOk(s: Lists, w: nat) {
    var l := s.lists(w);
    && Distinct(l.ring)
    && (forall t: nat :: t in l.ring ==> s.waiters(t).wait == Some(w))
    && (l.phase != Open ==> l.ring == [])
    && l.unwaiting + Sum(s.waiters, l.ring) == Count(s, w, s.n)
  }

  ghost predicate WaiterOk(s: Lists, t: nat) {
    var k := s.waiters(t);
    if k.wait == None then k.unwaiting == 0 else t in s.lists(k.wait.value).ring
  }

  // The tasklet being run is linked on a list whose mutex is held.
  ghost predicate RunningOk(s: Lists, x: Client) {
    x.running.Some? ==>
      && (x.op.UpHeld? || x.op.Cast? || x.op.CloseDetach? || x.op.WaitBoth? || x.unwait.UnwaitDone?)
      && x.running.value in s.lists(if x.unwait.UnwaitDone? then x.unwait.w else x.op.w).ring
      && (x.op.CloseDetach? && s.lists(x.op.w).ring != [] ==> x.running.value == s.lists(x.op.w).ring[0])
  }

  ghost predicate ClientOk(s: Lists, th: nat) {
    var x := s.clients(th);
    && (th >= s.n ==> Free(x))
    && (!x.unwait.NoUnwait? ==> (x.op.WaitRetry? || x.op.Unwaiting?) && x.unwait.t == x.op.t)
    && RunningOk(s, x)
    && match x.op
       case Idle => true
       case Unwaiting(_) => true
       case CloseRun(w) => s.lists(w).ring != []
       case CloseDetach(w) => s.lists(w).ring != []
       case CloseAwait(w, signalled) =>
         s.lists(w).phase == Draining && (signalled <==> s.lists(w).unwaiting == 0)
       case _ => s.lists(x.op.w).phase == Open
  }

  ghost predicate ApartOk(s: Lists, a: nat, b: nat) {
    a != b ==> Apart(s.clients(a), s.clients(b))
  }

  predicate HoldsSomeList(x: Client) {
    || x.op.UpHeld? || x.op.WaitHeld? || x.op.WaitBoth? || x.op.Cast? || x.op.CloseRun? || x.op.CloseDetach?
    || x.unwait.UnwaitHeld? || x.unwait.UnwaitDone?
  }

  predicate HoldsSomeWait(x: Client) {
    x.op.WaitBoth? || x.unwait.UnwaitCheck? || x.unwait.UnwaitDone?
  }

  function HeldList(x: Client): nat
    requires HoldsSomeList(x)
  {
    if x.unwait.UnwaitHeld? || x.unwait.UnwaitDone? then x.unwait.w else x.op.w
  }

  // Mutexes have one holder, and a list being closed is used by its closer alone.
  predicate Apart(x: Client, y: Client) {
    && (HoldsSomeList(x) && HoldsSomeList(y) ==> HeldList(x) != HeldList(y))
    && (HoldsSomeWait(x) && HoldsSomeWait(y) ==> HeldWait(x) != HeldWait(y))
    && (!x.op.Idle? && !x.op.Unwaiting? && Closes(x, x.op.w) ==> !Uses(y, x.op.w))
  }

  function HeldWait(x: Client): nat
    requires HoldsSomeWait(x)
  {
    if x.op.WaitBoth? then x.op.t else x.unwait.t
  }

  ghost predicate Sound(s: Lists) {
    && (forall th: nat :: ClientOk(s, th))
    && (forall a: nat, b: nat :: ApartOk(s, a, b))
    && (forall w: nat :: ListOk(s, w))
    && (forall t: nat :: WaiterOk(s, t))
  }

  ghost predicate InitLists(s: Lists) {
    && (forall th: nat :: s.clients(th) == Client(Idle, NoUnwait, None))
    && (forall t: nat :: s.waiters(t) == Waiter(None, 0))
    && (forall w: nat :: s.lists(w).ring == [] && s.lists(w).unwaiting == 0 && s.lists(w).phase == Open)
  }

  lemma {:induction false} CountNone(s: Lists, w: nat, n: nat)
    requires forall k: nat :: !Registered(s.clients(k), w)
    ensures Count(s, w, n) == 0
  {
    if n != 0 { CountNone(s, w, n - 1); }
  }

  lemma {:induction false} InitSound(s: Lists)
    requires InitLists(s)
    ensures Sound(s)
  {
    forall w: nat ensures ListOk(s, w) { CountNone(s, w, s.n); }
  }

  // A step that links and unlinks nobody, and counts nobody in or out.
  lemma {:induction false} ListsStand(s: Lists, s': Lists, th: nat)
    requires Sound(s) && s'.n == s.n && s'.waiters == s.waiters
    requires forall w: nat :: s'.lists(w).ring == s.lists(w).ring && s'.lists(w).unwaiting == s.lists(w).unwaiting
    requires forall w: nat :: s'.lists(w).phase == s.lists(w).phase || s'.lists(w).ring == []
    requires forall w: nat, k: nat :: Registered(s'.clients(k), w) == Registered(s.clients(k), w)
    ensures forall w: nat :: ListOk(s', w)
    ensures forall t: nat :: WaiterOk(s', t)
  {
    forall w: nat ensures ListOk(s', w) {
      assert ListOk(s, w);
      CountStep(s, s', w, th, s.n);
    }
    forall t: nat ensures WaiterOk(s', t) { assert WaiterOk(s, t); }
  }

  lemma {:induction false} CallKeeps(s: Lists, th: nat, a: Call)
    requires Sound(s) && Allowed(s, th, a) && (a.CallUp? || a.CallWait? || a.CallSet? || a.CallClose? || a.CallUnwait?)
    ensures Sound(Perform(s, th, a))
  {
    var s' := Perform(s, th, a);
    assert ClientOk(s, th);
    forall k: nat ensures ClientOk(s', k) { assert ClientOk(s, k) && ApartOk(s, th, k); }
    forall i: nat, j: nat ensures ApartOk(s', i, j) { assert ApartOk(s, i, j); }
    ListsStand(s, s', th);
  }

  lemma {:induction false} LockListKeeps(s: Lists, th: nat, a: Call)
    requires Sound(s) && Allowed(s, th, a) && (a.LockList?)
    ensures Sound(Perform(s, th, a))
  {
    var s' := Perform(s, th, a);
    assert ClientOk(s, th);
    forall k: nat ensures ClientOk(s', k) { assert ClientOk(s, k) && ApartOk(s, th, k); }
    forall i: nat, j: nat ensures ApartOk(s', i, j) { assert ApartOk(s, i, j); }
    ListsStand(s, s', th);
  }

  lemma {:induction false} PlainKeeps(s: Lists, th: nat, a: Call)
    requires Sound(s) && Allowed(s, th, a) && (a.Unlocking? || a.Retry? || a.CastNext? || a.CloseNext? || a.RunReturn?)
    ensures Sound(Perform(s, th, a))
  {
    var s' := Perform(s, th, a);
    assert ClientOk(s, th);
    forall k: nat ensures ClientOk(s', k) { assert ClientOk(s, k) && ApartOk(s, th, k); }
    forall i: nat, j: nat ensures ApartOk(s', i, j) { assert ApartOk(s, i, j); }
    ListsStand(s, s', th);
  }

  lemma {:induction false} UnwaitPlainKeeps(s: Lists, th: nat, a: Call)
    requires Sound(s) && Allowed(s, th, a) && (a.EndUnwait? || a.UnwaitLock? || a.UnwaitLockList?)
    ensures Sound(Perform(s, th, a))
  {
    var s' := Perform(s, th, a);
    assert ClientOk(s, th);
    forall k: nat ensures ClientOk(s', k) { assert ClientOk(s, k) && ApartOk(s, th, k); }
    forall i: nat, j: nat ensures ApartOk(s', i, j) { assert ApartOk(s, i, j); }
    ListsStand(s, s', th);
  }

  lemma {:induction false} CloseWakeKeeps(s: Lists, th: nat, a: Call)
    requires Sound(s) && Allowed(s, th, a) && (a.CloseWake?)
    ensures Sound(Perform(s, th, a))
  {
    var s' := Perform(s, th, a);
    assert ClientOk(s, th) && ListOk(s, s.clients(th).op.w);
    forall k: nat ensures ClientOk(s', k) { assert ClientOk(s, k) && ApartOk(s, th, k); }
    forall i: nat, j: nat ensures ApartOk(s', i, j) { assert ApartOk(s, i, j); }
    ListsStand(s, s', th);
  }

  lemma {:induction false} AddKeeps(s: Lists, w: nat, t: nat)
    requires Sound(s) && s.waiters(t).wait == None && s.lists(w).phase == Open
    ensures Sound(Add(s, w, t))
  {
    var s' := Add(s, w, t);
    var l := s.lists(w);
    assert WaiterOk(s, t) && ListOk(s, w);
    DistinctSnoc(l.ring, t);
    forall k: nat ensures ClientOk(s', k) { assert ClientOk(s, k); }
    forall i: nat, j: nat ensures ApartOk(s', i, j) { assert ApartOk(s, i, j); }
    forall v: nat ensures ListOk(s', v) {
      assert ListOk(s, v);
      CountStep(s, s', v, 0, s.n);
      SumSame(s.waiters, s'.waiters, s.lists(v).ring);
      SumSnoc(s'.waiters, l.ring, t);
    }
    forall u: nat ensures WaiterOk(s', u) { assert WaiterOk(s, u); }
  }

  lemma {:induction false} TakeKeeps(s: Lists, w: nat, upCount: int)
    requires Sound(s)
    ensures Sound(SetList(s, w, s.lists(w).(upCount := upCount)))
  {
    var s' := SetList(s, w, s.lists(w).(upCount := upCount));
    forall k: nat ensures ClientOk(s', k) { assert ClientOk(s, k); }
    forall i: nat, j: nat ensures ApartOk(s', i, j) { assert ApartOk(s, i, j); }
    forall v: nat ensures ListOk(s', v) { assert ListOk(s, v); CountStep(s, s', v, 0, s.n); }
    forall u: nat ensures WaiterOk(s', u) { assert WaiterOk(s, u); }
  }

  // The thread, holding the list, takes the tasklet's wait mutex as well.
  lemma {:induction false} BothKeeps(s: Lists, th: nat, retry: bool, got: bool, running: Option<nat>)
    requires Sound(s) && th < s.n && s.clients(th).op.WaitHeld? && WaitFree(s, s.clients(th).op.t)
    requires running.Some? ==> running.value in s.lists(s.clients(th).op.w).ring
    ensures var op := s.clients(th).op;
            Sound(Set(s, th, Client(WaitBoth(op.w, op.t, op.need, retry, got), NoUnwait, running)))
  {
    var op := s.clients(th).op;
    var s' := Set(s, th, Client(WaitBoth(op.w, op.t, op.need, retry, got), NoUnwait, running));
    assert ClientOk(s, th);
    forall k: nat ensures ClientOk(s', k) { assert ClientOk(s, k); }
    forall i: nat, j: nat ensures ApartOk(s', i, j) {
      assert ApartOk(s, i, j);
      assert !HoldsWait(s.clients(i), op.t) && !HoldsWait(s.clients(j), op.t);
    }
    forall v: nat ensures ListOk(s', v) { assert ListOk(s, v); CountStep(s, s', v, th, s.n); }
    forall u: nat ensures WaiterOk(s', u) { assert WaiterOk(s, u); }
  }

  lemma {:induction false} LockWaitKeeps(s: Lists, th: nat, a: Call)
    requires Sound(s) && Allowed(s, th, a) && a.LockWait?
    ensures Sound(Perform(s, th, a))
  {
    var op := s.clients(th).op;
    var l := s.lists(op.w);
    var wait := s.waiters(op.t).wait;
    assert ClientOk(s, th);
    if wait != None && wait != Some(op.w) {
      BothKeeps(s, th, true, false, None);
    } else if op.need.Some? && l.upCount >= op.need.value {
      TakeKeeps(s, op.w, l.upCount - op.need.value);
      BothKeeps(SetList(s, op.w, l.(upCount := l.upCount - op.need.value)), th, false, true, None);
    } else if wait == Some(op.w) {
      BothKeeps(s, th, false, false, None);
    } else {
      AddKeeps(s, op.w, op.t);
      BothKeeps(Add(s, op.w, op.t), th, false, false, if l.ring == [] && l.upCount != 0 then Some(op.t) else None);
    }
  }

  lemma {:induction false} DetachLists(s: Lists, th: nat, w: nat)
    requires Sound(s) && Allowed(s, th, Detach)
    ensures ListOk(Perform(s, th, Detach), w)
  {
    var s' := Perform(s, th, Detach);
    var x := s.clients(th);
    var l := s.lists(x.op.w);
    assert ClientOk(s, th) && ListOk(s, x.op.w) && ListOk(s, w);
    DistinctTail(l.ring);
    CountStep(s, s', w, th, s.n);
    SumSame(s.waiters, s'.waiters, if w == x.op.w then l.ring[1..] else s.lists(w).ring);
  }

  lemma {:induction false} DetachClients(s: Lists, th: nat, k: nat)
    requires Sound(s) && Allowed(s, th, Detach)
    ensures ClientOk(Perform(s, th, Detach), k)
  {
    assert ClientOk(s, th) && ClientOk(s, k) && ApartOk(s, th, k);
  }

  lemma {:induction false} DetachKeeps(s: Lists, th: nat, a: Call)
    requires Sound(s) && Allowed(s, th, a) && a.Detach?
    ensures Sound(Perform(s, th, a))
  {
    var s' := Perform(s, th, a);
    var x := s.clients(th);
    assert ClientOk(s, th) && ListOk(s, x.op.w);
    DistinctTail(s.lists(x.op.w).ring);
    forall k: nat ensures ClientOk(s', k) { DetachClients(s, th, k); }
    forall i: nat, j: nat ensures ApartOk(s', i, j) { assert ApartOk(s, i, j); }
    forall w: nat ensures ListOk(s', w) { DetachLists(s, th, w); }
    forall t: nat ensures WaiterOk(s', t) { assert WaiterOk(s, t); }
  }

  lemma {:induction false} UnwaitLookLists(s: Lists, th: nat, w: nat)
    requires Sound(s) && Allowed(s, th, UnwaitLook)
    ensures ListOk(Perform(s, th, UnwaitLook), w)
  {
    var s', t0 := Perform(s, th, UnwaitLook), s.clients(th).unwait.t;
    assert ClientOk(s, th) && WaiterOk(s, t0) && ListOk(s, w);
    CountStep(s, s', w, th, s.n);
    if s.waiters(t0).wait == Some(w) {
      SumRaise(s.waiters, s'.waiters, s.lists(w).ring, t0, 1);
    } else {
      SumSame(s.waiters, s'.waiters, s.lists(w).ring);
    }
  }

  lemma {:induction false} UnwaitLookKeeps(s: Lists, th: nat, a: Call)
    requires Sound(s) && Allowed(s, th, a) && (a.UnwaitLook?)
    ensures Sound(Perform(s, th, a))
  {
    var s' := Perform(s, th, a);
    var x := s.clients(th);
    assert ClientOk(s, th);
    var t0 := x.unwait.t;
    assert WaiterOk(s, t0);
    forall k: nat ensures ClientOk(s', k) { assert ClientOk(s, k) && ApartOk(s, th, k); }
    forall i: nat, j: nat ensures ApartOk(s', i, j) { assert ApartOk(s, i, j); }
    forall w: nat ensures ListOk(s', w) { UnwaitLookLists(s, th, w); }
    forall t: nat ensures WaiterOk(s', t) { assert WaiterOk(s, t); }
  }

  lemma {:induction false} RemoveKeeps(s: Lists, th: nat, a: Call)
    requires Sound(s) && Allowed(s, th, a)
    requires (a.UnwaitRemove? && s.waiters(s.clients(th).unwait.t).wait == Some(s.clients(th).unwait.w))
    ensures Sound(Perform(s, th, a))
  {
    var s' := Perform(s, th, a);
    var x := s.clients(th);
    assert ClientOk(s, th);
    var t0, w0 := x.unwait.t, x.unwait.w;
    assert ListOk(s, w0) && WaiterOk(s, t0);
    UnlinkedKeeps(s.lists(w0).ring, t0);
    forall k: nat ensures ClientOk(s', k) { assert ClientOk(s, k) && ApartOk(s, th, k); }
    forall i: nat, j: nat ensures ApartOk(s', i, j) { assert ApartOk(s, i, j); }
    forall w: nat ensures ListOk(s', w) {
      assert ListOk(s, w);
      CountStep(s, s', w, th, s.n);
      if w == w0 { SumUnlinked(s.waiters, s.lists(w).ring, t0); }
      SumSame(s.waiters, s'.waiters, s'.lists(w).ring);
    }
    forall t: nat ensures WaiterOk(s', t) { assert WaiterOk(s, t); }
  }

  // A registered thread counts in `unwaiting` once the list has been emptied.
  lemma {:induction false} DrainingCounts(s: Lists, th: nat, w: nat)
    requires Sound(s) && th < s.n && Registered(s.clients(th), w) && s.lists(w).ring == []
    ensures s.lists(w).unwaiting > 0
  {
    assert ListOk(s, w);
    CountZero(s, w, th, s.n);
  }

  lemma {:induction false} MissedOthers(s: Lists, th: nat, a: Call, k: nat)
    requires Allowed(s, th, a) && a.UnwaitRemove? && k != th
    requires s.waiters(s.clients(th).unwait.t).wait != Some(s.clients(th).unwait.w)
    ensures var w := s.clients(th).unwait.w;
            var s' := Perform(s, th, a);
            && s'.n == s.n && s'.lists == Put(s.lists, w, s.lists(w).(unwaiting := s.lists(w).unwaiting - 1))
            && s'.clients(k) == if s.lists(w).unwaiting == 1 && s.lists(w).phase == Draining
                                then SignalCloser(s.clients(k), w) else s.clients(k)
  {
  }

  lemma {:induction false} MissedClients(s: Lists, th: nat, a: Call, k: nat)
    requires Sound(s) && Allowed(s, th, a) && a.UnwaitRemove?
    requires s.waiters(s.clients(th).unwait.t).wait != Some(s.clients(th).unwait.w)
    ensures ClientOk(Perform(s, th, a), k)
  {
    var w := s.clients(th).unwait.w;
    assert ClientOk(s, k);
    if k == th { return; }
    MissedOthers(s, th, a, k);
    if s.lists(w).phase != Open {
      assert ListOk(s, w);
      DrainingCounts(s, th, w);
    }
  }

  lemma {:induction false} MissedKeeps(s: Lists, th: nat, a: Call)
    requires Sound(s) && Allowed(s, th, a) && a.UnwaitRemove?
    requires s.waiters(s.clients(th).unwait.t).wait != Some(s.clients(th).unwait.w)
    ensures Sound(Perform(s, th, a))
  {
    var s' := Perform(s, th, a);
    var t0 := s.clients(th).unwait.t;
    assert ClientOk(s, th);
    forall k: nat ensures ClientOk(s', k) { MissedClients(s, th, a, k); }
    forall i: nat, j: nat ensures ApartOk(s', i, j) {
      assert ApartOk(s, i, j);
      assert !HoldsWait(s.clients(i), t0) && !HoldsWait(s.clients(j), t0);
    }
    forall w: nat ensures ListOk(s', w) { assert ListOk(s, w); CountStep(s, s', w, th, s.n); }
    forall t: nat ensures WaiterOk(s', t) { assert WaiterOk(s, t); }
  }

  lemma {:induction false} PerformKeeps(s: Lists, th: nat, a: Call)
    requires Sound(s) && Allowed(s, th, a)
    ensures Sound(Perform(s, th, a))
  {
    match a
    case CallUp(_, _) => CallKeeps(s, th, a);
    case CallWait(_, _, _) => CallKeeps(s, th, a);
    case CallSet(_, _, _) => CallKeeps(s, th, a);
    case CallClose(_) => CallKeeps(s, th, a);
    case CallUnwait(_) => CallKeeps(s, th, a);
    case LockList => LockListKeeps(s, th, a);
    case LockWait => LockWaitKeeps(s, th, a);
    case Unlocking => PlainKeeps(s, th, a);
    case Retry => PlainKeeps(s, th, a);
    case CastNext => PlainKeeps(s, th, a);
    case CloseNext => PlainKeeps(s, th, a);
    case Detach => DetachKeeps(s, th, a);
    case CloseWake => CloseWakeKeeps(s, th, a);
    case UnwaitLock => UnwaitPlainKeeps(s, th, a);
    case UnwaitLook => UnwaitLookKeeps(s, th, a);
    case UnwaitLockList => UnwaitPlainKeeps(s, th, a);
    case UnwaitRemove =>
      var u := s.clients(th).unwait;
      if s.waiters(u.t).wait == Some(u.w) { RemoveKeeps(s, th, a); } else { MissedKeeps(s, th, a); }
    case EndUnwait => UnwaitPlainKeeps(s, th, a);
    case RunReturn => PlainKeeps(s, th, a);
  }
}
