/** Who is run by a broadcast, and by the closing of a list (src/tasklet.c): everybody who was on the list when
    its mutex was taken, before it is given up. */
module Broadcasts {
  import opened Options
  import Q = RunQueues
  import QI = RunQueueInvariant
  import QT = RunQueueTheorems
  import W = WaitLists
  import WI = WaitListInvariant
  import WT = WaitListTheorems
  import opened SemaphoreProgress
  import opened Tasklets
  import opened TaskletTheorems

  // How far a thread has come since it called for everybody on a list to be run: it has yet to get the mutex,
  // or has it, or has given it up.  `ring` is what it found, `ran` those that its tasklet_run has returned for.
  datatype Sweep = Asked | Sweeping(ring: seq<nat>, ran: set<nat>) | Swept(ring: seq<nat>, ran: set<nat>)

  // wait_list_set with a broadcast, wait_list_broadcast, or wait_list_fini
  predicate Sweeps(c: W.Call, w: nat) {
    (c.CallSet? && c.broadcast && c.w == w) || c == W.CallClose(w)
  }

  // Another tasklet_run by the thread has returned.
  ghost predicate Runs(s: State, d: Deed)
    requires Can(s, d.th, d.a)
  {
    d.a == Queue(Q.RunSection) && Do(s, d.th, d.a).q.threads(d.th).run.NoRun?
  }

  ghost function Further(s: State, d: Deed, th: nat, w: nat, v: Sweep): Sweep
    requires Can(s, d.th, d.a)
  {
    if d.th != th || v.Swept? || (v.Asked? && d.a != List(W.LockList)) then v
    else
      var ring := if v.Asked? then s.w.lists(w).ring else v.ring;
      var ran := (if v.Asked? then {} else v.ran) + (if Runs(s, d) then {s.q.threads(th).run.t} else {});
      if W.HoldsList(Do(s, d.th, d.a).w.clients(th), w) then Sweeping(ring, ran) else Swept(ring, ran)
  }

  ghost function Follow(s: State, deeds: seq<Deed>, th: nat, w: nat, v: Sweep): Sweep
    requires Viable(s, deeds)
    decreases |deeds|
  {
    if deeds == [] then v
    else Follow(Do(s, deeds[0].th, deeds[0].a), deeds[1..], th, w, Further(s, deeds[0], th, w, v))
  }

  // The tasklet has been run, or is just being run by the thread.
  ghost predicate Served(s: State, th: nat, ran: set<nat>, t: nat) {
    t in ran || (s.w.clients(th).running == Some(t) && !s.q.threads(th).run.NoRun?)
  }

  ghost predicate SweepOk(s: State, th: nat, w: nat, v: Sweep) {
    var y := s.w.clients(th);
    match v
    case Asked => (y.op.SetWant? && y.op.w == w && y.op.broadcast) || y.op == W.CloseWant(w)
    case Sweeping(ring, ran) => Halfway(s, th, w, ring, ran)
    case Swept(ring, ran) => forall t: nat :: t in ring ==> t in ran
  }

  // So far the ring has been taken off from its head on, and those taken off have been run.
  ghost predicate Closed(left: seq<nat>, ring: seq<nat>, ran: set<nat>) {
    && |left| <= |ring| && left == ring[|ring| - |left|..]
    && forall j: nat :: j < |ring| - |left| ==> ring[j] in ran
  }

  // The thread has the list: what is left of the ring is still to be run, but for its first when it is being run.
  ghost predicate Halfway(s: State, th: nat, w: nat, ring: seq<nat>, ran: set<nat>) {
    var op := s.w.clients(th).op;
    var left := s.w.lists(w).ring;
    && (op.Cast? || op.CloseRun? || op.CloseDetach?) && op.w == w
    && (op.Cast? ==> left == ring && op.i <= |ring| && forall j: nat :: j < op.i ==> Served(s, th, ran, ring[j]))
    && (!op.Cast? ==> Closed(left, ring, ran))
    && (op.CloseDetach? ==> left != [] && Served(s, th, ran, left[0]))
  }

  lemma {:induction false} SweepStands(s: State, s': State, th: nat, w: nat, v: Sweep)
    requires SweepOk(s, th, w, v) && !v.Swept? && s'.w.clients(th) == s.w.clients(th)
    requires v.Sweeping? ==> s'.q.threads(th).run == s.q.threads(th).run && s'.w.lists(w).ring == s.w.lists(w).ring
    ensures SweepOk(s', th, w, v)
  {
    if v.Sweeping? {
      forall t: nat ensures Served(s', th, v.ran, t) == Served(s, th, v.ran, t) {}
    }
  }

  lemma {:induction false} OthersStand(s: State, d: Deed, th: nat)
    requires Joint(s) && Can(s, d.th, d.a) && d.th != th
    requires W.Free(s.w.clients(th)) || !s.w.clients(th).op.CloseAwait?
    ensures var s' := Do(s, d.th, d.a);
            && s'.q.threads(th).run == s.q.threads(th).run
            && (!s.w.clients(th).op.CloseAwait? ==> s'.w.clients(th) == s.w.clients(th))
  {
    if d.a.List? { WT.OthersMove(s.w, d.th, d.a.c, th); }
    if d.a.Queue? || d.a.User? { QT.OthersNudged(s.q, d.th, d.a.a, th); }
  }

  lemma {:induction false} FurtherOthers(s: State, d: Deed, th: nat, w: nat, v: Sweep)
    requires Joint(s) && Can(s, d.th, d.a) && d.th != th && SweepOk(s, th, w, v)
    ensures SweepOk(Do(s, d.th, d.a), th, w, v)
  {
    if !v.Swept? {
      OthersStand(s, d, th);
      if v.Sweeping? {
        assert WI.ClientOk(s.w, th);
        RingStands(s, d, th, w);
      }
      SweepStands(s, Do(s, d.th, d.a), th, w, v);
    }
  }

  lemma {:induction false} RingStands(s: State, d: Deed, th: nat, w: nat)
    requires Joint(s) && Can(s, d.th, d.a) && d.th != th
    requires WI.HoldsSomeList(s.w.clients(th)) && WI.HeldList(s.w.clients(th)) == w
    ensures Do(s, d.th, d.a).w.lists(w).ring == s.w.lists(w).ring
  {
    if d.a.List? { RingUnder(s.w, d.th, d.a.c, th); }
  }

  // A step in the call of tasklet_run that the thread is making for the list.
  lemma {:induction false} FurtherRuns(s: State, d: Deed, w: nat, v: Sweep)
    requires Joint(s) && Can(s, d.th, d.a) && (d.a.Queue? || d.a.User?) && SweepOk(s, d.th, w, v)
    ensures SweepOk(Do(s, d.th, d.a), d.th, w, Further(s, d, d.th, w, v))
  {
    var s', v' := Do(s, d.th, d.a), Further(s, d, d.th, w, v);
    assert s'.w == s.w;
    if v.Sweeping? {
      assert WI.ClientOk(s.w, d.th);
      assert W.HoldsList(s'.w.clients(d.th), w);
      forall t: nat | Served(s, d.th, v.ran, t) ensures Served(s', d.th, v'.ran, t) {
        ServedStill(s, d, v.ran, t);
      }
      HalfwayGrows(s, s', d.th, w, v.ring, v.ran, v'.ran);
    }
  }

  lemma {:induction false} HalfwayGrows(
      s: State, s': State, th: nat, w: nat, ring: seq<nat>, ran: set<nat>, ran': set<nat>)
    requires Halfway(s, th, w, ring, ran) && s'.w == s.w && ran <= ran'
    requires forall t: nat :: Served(s, th, ran, t) ==> Served(s', th, ran', t)
    ensures Halfway(s', th, w, ring, ran')
  {
  }

  lemma {:induction false} ServedStill(s: State, d: Deed, ran: set<nat>, t: nat)
    requires Joint(s) && Can(s, d.th, d.a) && (d.a.Queue? || d.a.User?) && Served(s, d.th, ran, t)
    ensures Served(Do(s, d.th, d.a), d.th, ran + (if Runs(s, d) then {s.q.threads(d.th).run.t} else {}), t)
  {
    assert LinkOk(s, d.th) && QI.ThreadOk(s.q, d.th);
  }

  lemma {:induction false} FurtherLocks(s: State, d: Deed, w: nat)
    requires Joint(s) && Can(s, d.th, d.a) && d.a == List(W.LockList) && SweepOk(s, d.th, w, Asked)
    ensures SweepOk(Do(s, d.th, d.a), d.th, w, Further(s, d, d.th, w, Asked))
  {
  }

  lemma {:induction false} FurtherCasts(s: State, d: Deed, w: nat, v: Sweep)
    requires Joint(s) && Can(s, d.th, d.a) && d.a.List? && v.Sweeping? && SweepOk(s, d.th, w, v)
    requires s.w.clients(d.th).op.Cast?
    ensures SweepOk(Do(s, d.th, d.a), d.th, w, Further(s, d, d.th, w, v))
  {
    assert WI.ClientOk(s.w, d.th);
    if d.a.c.Unlocking? { CastEnds(s, d, w, v); } else { CastOn(s, d, w, v); }
  }

  lemma {:induction false} CastEnds(s: State, d: Deed, w: nat, v: Sweep)
    requires Joint(s) && Can(s, d.th, d.a) && v.Sweeping? && SweepOk(s, d.th, w, v)
    requires s.w.clients(d.th).op.Cast? && d.a == List(W.Unlocking)
    ensures Further(s, d, d.th, w, v) == Swept(v.ring, v.ran) && forall t: nat :: t in v.ring ==> t in v.ran
  {
    assert WI.ClientOk(s.w, d.th) && s.w.clients(d.th).op.i == |v.ring|;
    AllServed(s, d.th, v.ring, v.ran);
  }

  lemma {:induction false} AllServed(s: State, th: nat, ring: seq<nat>, ran: set<nat>)
    requires s.w.clients(th).running == None && forall j: nat :: j < |ring| ==> Served(s, th, ran, ring[j])
    ensures forall t: nat :: t in ring ==> t in ran
  {
    forall t: nat | t in ring ensures t in ran {
      var j: nat :| j < |ring| && ring[j] == t;
      assert Served(s, th, ran, ring[j]);
    }
  }

  lemma {:induction false} CastOn(s: State, d: Deed, w: nat, v: Sweep)
    requires Joint(s) && Can(s, d.th, d.a) && v.Sweeping? && SweepOk(s, d.th, w, v)
    requires s.w.clients(d.th).op.Cast? && (d.a == List(W.CastNext) || d.a == List(W.RunReturn))
    ensures SweepOk(Do(s, d.th, d.a), d.th, w, v) && Further(s, d, d.th, w, v) == v
  {
    var s', i := Do(s, d.th, d.a), s.w.clients(d.th).op.i;
    forall j: nat | j < i
      ensures v.ring[j] in v.ran || (d.a.c.RunReturn? && s.w.clients(d.th).running == Some(v.ring[j])) {
      assert Served(s, d.th, v.ran, v.ring[j]);
    }
    forall j: nat | j < s'.w.clients(d.th).op.i ensures Served(s', d.th, v.ran, v.ring[j]) {
      assert j < i ==> Served(s, d.th, v.ran, v.ring[j]);
    }
  }

  lemma {:induction false} FurtherCloses(s: State, d: Deed, w: nat, v: Sweep)
    requires Joint(s) && Can(s, d.th, d.a) && d.a.List? && v.Sweeping? && SweepOk(s, d.th, w, v)
    requires !s.w.clients(d.th).op.Cast?
    ensures SweepOk(Do(s, d.th, d.a), d.th, w, Further(s, d, d.th, w, v))
  {
    assert WI.ClientOk(s.w, d.th);
  }

  lemma {:induction false} FurtherOwn(s: State, d: Deed, w: nat, v: Sweep)
    requires Joint(s) && Can(s, d.th, d.a) && SweepOk(s, d.th, w, v)
    ensures SweepOk(Do(s, d.th, d.a), d.th, w, Further(s, d, d.th, w, v))
  {
    if !v.Swept? {
      if d.a.Queue? || d.a.User? {
        FurtherRuns(s, d, w, v);
      } else if d.a.List? && v.Asked? {
        assert WI.ClientOk(s.w, d.th);
        FurtherLocks(s, d, w);
      } else if d.a.List? {
        if s.w.clients(d.th).op.Cast? { FurtherCasts(s, d, w, v); } else { FurtherCloses(s, d, w, v); }
      }
    }
  }

  lemma {:induction false} SweepKept(s: State, deeds: seq<Deed>, th: nat, w: nat, v: Sweep)
    requires Joint(s) && Viable(s, deeds) && SweepOk(s, th, w, v)
    ensures Outcome(s, deeds).q.torn || SweepOk(Outcome(s, deeds), th, w, Follow(s, deeds, th, w, v))
    decreases |deeds|
  {
    if deeds != [] {
      var d := deeds[0];
      var s1 := Do(s, d.th, d.a);
      JointKept(s, d.th, d.a);
      if s1.q.torn {
        assert deeds[1..] == [];
      } else {
        if d.th == th { FurtherOwn(s, d, w, v); } else { FurtherOthers(s, d, th, w, v); }
        SweepKept(s1, deeds[1..], th, w, Further(s, d, th, w, v));
      }
    }
  }

  // From the call on, over every run: when the thread gives up the mutex of the list, it has run everybody
  // that it found on it.
  lemma {:induction false} EverybodyRun(s: State, th: nat, c: W.Call, w: nat, deeds: seq<Deed>)
    requires Joint(s) && Can(s, th, List(c)) && Sweeps(c, w) && Viable(Do(s, th, List(c)), deeds)
    ensures var s1 := Do(s, th, List(c));
            var v := Follow(s1, deeds, th, w, Asked);
            Outcome(s1, deeds).q.torn || (v.Swept? ==> forall t: nat :: t in v.ring ==> t in v.ran)
  {
    JointKept(s, th, List(c));
    SweepKept(Do(s, th, List(c)), deeds, th, w, Asked);
  }

  // ---------------------------------------------------------------- and is due

  ghost predicate AllBehaved(s: State, deeds: seq<Deed>, w: nat)
    requires Viable(s, deeds)
    decreases |deeds|
  {
    deeds == [] || (Behaved(s, deeds[0], w) && AllBehaved(Do(s, deeds[0].th, deeds[0].a), deeds[1..], w))
  }

  // Those that the broadcast has run so far are due.
  ghost predicate SweepDue(s: State, th: nat, v: Sweep) {
    match v
    case Asked => s.w.clients(th).op.SetWant?
    case Sweeping(ring, ran) => s.w.clients(th).op.Cast? && forall t: nat :: t in ring && t in ran ==> Due(s, t)
    case Swept(_, _) => true
  }

  lemma {:induction false} DueStill(s: State, d: Deed, th: nat, w: nat, v: Sweep, t: nat)
    requires Joint(s) && Can(s, d.th, d.a) && !Do(s, d.th, d.a).q.torn && Behaved(s, d, w)
    requires v.Sweeping? && SweepOk(s, th, w, v) && s.w.clients(th).op.Cast? && t in v.ring && Due(s, t)
    ensures Due(Do(s, d.th, d.a), t)
  {
    assert WI.ClientOk(s.w, th) && WI.ListOk(s.w, w);
    if d.th != th { NotParkedUnder(s, d, th, t); }
    DueKept(s, d, t);
  }

  lemma {:induction false} DueOnRun(s: State, d: Deed, t: nat)
    requires Joint(s) && Can(s, d.th, d.a) && Runs(s, d) && s.q.threads(d.th).run.t == t
    ensures Due(Do(s, d.th, d.a), t)
  {
    QT.RunSchedulesUnlessStray(s.q, d.th);
    assert QI.ThreadOk(s.q, d.th);
  }

  lemma {:induction false} StaysCast(s: State, d: Deed, th: nat, w: nat, v: Sweep)
    requires Joint(s) && Can(s, d.th, d.a) && SweepOk(s, th, w, v) && SweepDue(s, th, v)
    ensures var v' := Further(s, d, th, w, v);
            var op := Do(s, d.th, d.a).w.clients(th).op;
            (v'.Asked? ==> op.SetWant?) && (v'.Sweeping? ==> op.Cast?)
  {
    if !v.Swept? {
      assert WI.ClientOk(s.w, th);
      if d.th != th { OthersStand(s, d, th); }
    }
  }

  lemma {:induction false} SweepDueKept(s: State, d: Deed, th: nat, w: nat, v: Sweep)
    requires Joint(s) && Can(s, d.th, d.a) && !Do(s, d.th, d.a).q.torn && Behaved(s, d, w)
    requires SweepOk(s, th, w, v) && SweepDue(s, th, v)
    ensures SweepDue(Do(s, d.th, d.a), th, Further(s, d, th, w, v))
  {
    var s', v' := Do(s, d.th, d.a), Further(s, d, th, w, v);
    StaysCast(s, d, th, w, v);
    if v'.Sweeping? {
      forall t: nat | t in v'.ring && t in v'.ran ensures Due(s', t) {
        if v.Sweeping? && t in v.ran {
          DueStill(s, d, th, w, v, t);
        } else {
          DueOnRun(s, d, t);
        }
      }
    }
  }

  lemma {:induction false} SweepDueOver(s: State, deeds: seq<Deed>, th: nat, w: nat, v: Sweep)
    requires Joint(s) && Viable(s, deeds) && AllBehaved(s, deeds, w) && SweepOk(s, th, w, v) && SweepDue(s, th, v)
    ensures Outcome(s, deeds).q.torn || SweepDue(Outcome(s, deeds), th, Follow(s, deeds, th, w, v))
    decreases |deeds|
  {
    if deeds != [] {
      var d := deeds[0];
      var s1 := Do(s, d.th, d.a);
      JointKept(s, d.th, d.a);
      if s1.q.torn {
        assert deeds[1..] == [];
      } else {
        if d.th == th { FurtherOwn(s, d, w, v); } else { FurtherOthers(s, d, th, w, v); }
        SweepDueKept(s, d, th, w, v);
        SweepDueOver(s1, deeds[1..], th, w, Further(s, d, th, w, v));
      }
    }
  }

  // From a call with a broadcast on, over every run in which the handlers of the tasklets on the list behave:
  // when the thread gives up the mutex, all that were on the list will look at it again.
  lemma {:induction false} EverybodyDue(s: State, th: nat, w: nat, count: Option<int>, deeds: seq<Deed>)
    requires var c := W.CallSet(w, count, true);
      && Joint(s) && Can(s, th, List(c))
      && Viable(Do(s, th, List(c)), deeds) && AllBehaved(Do(s, th, List(c)), deeds, w)
    requires var e := Outcome(Do(s, th, List(W.CallSet(w, count, true))), deeds);
      && !e.q.torn && Can(e, th, List(W.Unlocking))
      && Follow(Do(s, th, List(W.CallSet(w, count, true))), deeds, th, w, Asked).Sweeping?
    ensures var s1 := Do(s, th, List(W.CallSet(w, count, true)));
            forall t: nat :: t in Follow(s1, deeds, th, w, Asked).ring ==>
              Due(Do(Outcome(s1, deeds), th, List(W.Unlocking)), t)
  {
    var s1 := Do(s, th, List(W.CallSet(w, count, true)));
    var e, v := Outcome(s1, deeds), Follow(s1, deeds, th, w, Asked);
    JointKept(s, th, List(W.CallSet(w, count, true)));
    SweepKept(s1, deeds, th, w, Asked);
    SweepDueOver(s1, deeds, th, w, Asked);
    Reachable(s1, deeds);
    var d := Deed(th, List(W.Unlocking));
    CastEnds(e, d, w, v);
    forall t: nat | t in v.ring ensures Due(Do(e, th, d.a), t) {
      DueStill(e, d, th, w, v, t);
    }
  }

  // ---------------------------------------------------------------- and nobody else

  // Whom a call on w is to run, of those on the ring: everybody, the head, or nobody.
  function Wanted(c: W.Call, ring: seq<nat>): set<nat> {
    if c.CallUp? then (if ring == [] then {} else {ring[0]})
    else if c.CallSet? && !c.broadcast then {}
    else set t | t in ring
  }

  predicate CallsOn(c: W.Call, w: nat) {
    (c.CallUp? || c.CallSet? || c.CallClose?) && c.w == w
  }

  ghost predicate JustOk(s: State, th: nat, c: W.Call, w: nat, v: Sweep)
    requires CallsOn(c, w)
  {
    var y := s.w.clients(th);
    match v
    case Asked =>
      y.op == if c.CallUp? then W.UpWant(w, c.n)
              else if c.CallClose? then W.CloseWant(w)
              else W.SetWant(w, c.count, c.broadcast)
    case Sweeping(ring, ran) =>
      && (ran <= Wanted(c, ring)) && (y.running.Some? ==> y.running.value in Wanted(c, ring))
      && InCall(s, y.op, c, w, ring)
      && (c.CallUp? ==> forall t: nat :: t in Wanted(c, ring) ==> Served(s, th, ran, t))
    case Swept(ring, ran) => ran <= Wanted(c, ring) && (c.CallUp? ==> ran == Wanted(c, ring))
  }

  ghost predicate InCall(s: State, op: W.Op, c: W.Call, w: nat, ring: seq<nat>)
    requires CallsOn(c, w)
  {
    if c.CallUp? then op == W.UpHeld(w)
    else if c.CallSet? then op.Cast? && op.w == w && s.w.lists(w).ring == ring && (!c.broadcast ==> op.i >= |ring|)
    else (op.CloseRun? || op.CloseDetach?) && op.w == w && forall t: nat :: t in s.w.lists(w).ring ==> t in ring
  }

  lemma {:induction false} JustOthers(s: State, d: Deed, th: nat, c: W.Call, w: nat, v: Sweep)
    requires Joint(s) && Can(s, d.th, d.a) && d.th != th && CallsOn(c, w) && JustOk(s, th, c, w, v)
    ensures JustOk(Do(s, d.th, d.a), th, c, w, v)
  {
    if !v.Swept? {
      assert WI.ClientOk(s.w, th);
      OthersStand(s, d, th);
      if v.Sweeping? {
        RingStands(s, d, th, w);
        var s' := Do(s, d.th, d.a);
        forall t: nat ensures Served(s', th, v.ran, t) == Served(s, th, v.ran, t) {}
      }
    }
  }

  lemma {:induction false} JustLocks(s: State, d: Deed, c: W.Call, w: nat)
    requires Joint(s) && Can(s, d.th, d.a) && d.a == List(W.LockList) && CallsOn(c, w) && JustOk(s, d.th, c, w, Asked)
    ensures JustOk(Do(s, d.th, d.a), d.th, c, w, Further(s, d, d.th, w, Asked))
  {
    assert WI.ClientOk(s.w, d.th);
  }

  lemma {:induction false} JustRuns(s: State, d: Deed, c: W.Call, w: nat, v: Sweep)
    requires Joint(s) && Can(s, d.th, d.a) && (d.a.Queue? || d.a.User?) && CallsOn(c, w) && JustOk(s, d.th, c, w, v)
    ensures JustOk(Do(s, d.th, d.a), d.th, c, w, Further(s, d, d.th, w, v))
  {
    var s', v' := Do(s, d.th, d.a), Further(s, d, d.th, w, v);
    if v.Sweeping? {
      assert WI.ClientOk(s.w, d.th) && LinkOk(s, d.th) && QI.ThreadOk(s.q, d.th);
      forall t: nat | Served(s, d.th, v.ran, t) ensures Served(s', d.th, v'.ran, t) {
        ServedStill(s, d, v.ran, t);
      }
    }
  }

  lemma {:induction false} JustUp(s: State, d: Deed, c: W.Call, w: nat, v: Sweep)
    requires Joint(s) && Can(s, d.th, d.a) && d.a.List? && v.Sweeping? && c.CallUp? && CallsOn(c, w)
    requires JustOk(s, d.th, c, w, v)
    ensures JustOk(Do(s, d.th, d.a), d.th, c, w, Further(s, d, d.th, w, v))
  {
    assert WI.ClientOk(s.w, d.th);
    forall t: nat | t in Wanted(c, v.ring) ensures t in v.ran {
      assert Served(s, d.th, v.ran, t);
    }
  }

  lemma {:induction false} JustWalks(s: State, d: Deed, c: W.Call, w: nat, v: Sweep)
    requires Joint(s) && Can(s, d.th, d.a) && d.a.List? && v.Sweeping? && !c.CallUp? && CallsOn(c, w)
    requires JustOk(s, d.th, c, w, v)
    ensures JustOk(Do(s, d.th, d.a), d.th, c, w, Further(s, d, d.th, w, v))
  {
    assert WI.ClientOk(s.w, d.th);
  }

  lemma {:induction false} JustOwn(s: State, d: Deed, c: W.Call, w: nat, v: Sweep)
    requires Joint(s) && Can(s, d.th, d.a) && CallsOn(c, w) && JustOk(s, d.th, c, w, v)
    ensures JustOk(Do(s, d.th, d.a), d.th, c, w, Further(s, d, d.th, w, v))
  {
    if !v.Swept? {
      assert WI.ClientOk(s.w, d.th);
      if d.a.Queue? || d.a.User? {
        JustRuns(s, d, c, w, v);
      } else if d.a.List? {
        if v.Asked? {
          JustLocks(s, d, c, w);
        } else if c.CallUp? {
          JustUp(s, d, c, w, v);
        } else {
          JustWalks(s, d, c, w, v);
        }
      }
    }
  }

  lemma {:induction false} JustKept(s: State, deeds: seq<Deed>, th: nat, c: W.Call, w: nat, v: Sweep)
    requires Joint(s) && Viable(s, deeds) && CallsOn(c, w) && JustOk(s, th, c, w, v)
    ensures Outcome(s, deeds).q.torn || JustOk(Outcome(s, deeds), th, c, w, Follow(s, deeds, th, w, v))
    decreases |deeds|
  {
    if deeds != [] {
      var d := deeds[0];
      var s1 := Do(s, d.th, d.a);
      JointKept(s, d.th, d.a);
      if s1.q.torn {
        assert deeds[1..] == [];
      } else {
        if d.th == th { JustOwn(s, d, c, w, v); } else { JustOthers(s, d, th, c, w, v); }
        JustKept(s1, deeds[1..], th, c, w, Further(s, d, th, w, v));
      }
    }
  }

  // A call of wait_list_up runs the head and nobody else, one that sets the count without a broadcast nobody,
  // and the others everybody on the list and nobody else.
  lemma {:induction false} JustThoseRun(s: State, th: nat, c: W.Call, w: nat, deeds: seq<Deed>)
    requires Joint(s) && Can(s, th, List(c)) && CallsOn(c, w) && Viable(Do(s, th, List(c)), deeds)
    ensures var s1 := Do(s, th, List(c));
            var v := Follow(s1, deeds, th, w, Asked);
            Outcome(s1, deeds).q.torn || (v.Swept? ==> v.ran == Wanted(c, v.ring))
  {
    var s1 := Do(s, th, List(c));
    JointKept(s, th, List(c));
    JustKept(s1, deeds, th, c, w, Asked);
    if Sweeps(c, w) { EverybodyRun(s, th, c, w, deeds); }
  }
}
