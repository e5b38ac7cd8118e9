/** The run queues' rings as the source has them (src/tasklet.c): each tasklet holds its own links, nobody
    clears them when it is taken off, and a removal writes through the links that it finds. */
module RunRings {
  import opened Options
  import opened Rings
  import opened RunQueueInvariant
  import opened RunQueues
  import opened RunQueueTheorems
  import opened Tables

  // runq_next and runq_prev of every tasklet, and the head of every queue
  datatype Links = Links(next: Table<nat>, prev: Table<nat>, head: Table<Option<nat>>)

  ghost predicate Edge(l: Links, r: seq<nat>, i: nat)
    requires i < |r|
  {
    l.next(r[i]) == r[Succ(i, |r|)] && l.prev(r[Succ(i, |r|)]) == r[i]
  }

  ghost predicate Linked(l: Links, r: seq<nat>) {
    forall i: nat :: i < |r| ==> Edge(l, r, i)
  }

  // The links make r the ring of q.
  ghost predicate Shows(l: Links, q: nat, r: seq<nat>) {
    Linked(l, r) && l.head(q) == if r == [] then None else Some(r[0])
  }

  // run_queue_enqueue
  function Enqueued(l: Links, q: nat, t: nat): Links {
    match l.head(q)
    case None => Links(Put(l.next, t, t), Put(l.prev, t, t), Put(l.head, q, Some(t)))
    case Some(head) =>
      var prev := l.prev(head);
      l.(next := Put(Put(l.next, t, head), prev, t), prev := Put(Put(l.prev, t, prev), head, t))
  }

  // run_queue_remove
  function Taken(l: Links, q: nat, t: nat): Links {
    var next, prev := l.next(t), l.prev(t);
    Links(Put(l.next, prev, next), Put(l.prev, next, prev),
          if l.head(q) == Some(t) then Put(l.head, q, if next == t then None else Some(next)) else l.head)
  }

  lemma {:induction false} EdgeBefore(l: Links, r: seq<nat>, i: nat)
    requires Linked(l, r) && i < |r|
    ensures l.prev(r[i]) == r[if i == 0 then |r| - 1 else i - 1] && l.next(r[i]) == r[Succ(i, |r|)]
  {
    assert Edge(l, r, if i == 0 then |r| - 1 else i - 1) && Edge(l, r, i);
  }

  lemma {:induction false} EnqueueLinks(l: Links, q: nat, r: seq<nat>, t: nat)
    requires Shows(l, q, r) && Distinct(r) && t !in r
    ensures Shows(Enqueued(l, q, t), q, r + [t])
  {
    var s := r + [t];
    if r != [] { EdgeBefore(l, r, 0); }
    forall i: nat | i < |s| ensures Edge(Enqueued(l, q, t), s, i) {
      if i < |r| { assert Edge(l, r, i); }
    }
  }

  // Other rings are left alone, if they share nothing with the one that is worked on.
  lemma {:induction false} EnqueueOthers(l: Links, q: nat, r: seq<nat>, t: nat, p: nat, other: seq<nat>)
    requires Shows(l, q, r) && Shows(l, p, other) && p != q && t !in other && forall u: nat :: u in r ==> u !in other
    ensures Shows(Enqueued(l, q, t), p, other)
  {
    if r != [] {
      EdgeBefore(l, r, 0);
      assert r[0] in r && r[|r| - 1] in r;
    }
    forall i: nat | i < |other| ensures Edge(Enqueued(l, q, t), other, i) {
      assert Edge(l, other, i);
    }
  }

  // The tasklet at position j is taken off its ring.
  lemma {:induction false} TakeLinks(l: Links, q: nat, r: seq<nat>, j: nat)
    requires Shows(l, q, r) && Distinct(r) && j < |r|
    ensures Shows(Taken(l, q, r[j]), q, Without(r, j))
  {
    var w := Without(r, j);
    EdgeBefore(l, r, j);
    forall i: nat | i < |w| ensures Edge(Taken(l, q, r[j]), w, i) {
      var k := if i < j then i else i + 1;
      assert Edge(l, r, k) && w[i] == r[k];
    }
  }

  // A tasklet that is not on a ring is removed: the ring is as it was if and only if those that were its
  // neighbours when it was last taken off, if they are on the ring, are each other's neighbours still.
  lemma {:induction false} StaleRemoval(l: Links, q: nat, t: nat, o: nat, r: seq<nat>)
    requires Shows(l, o, r) && (o == q ==> t !in r)
    ensures Shows(Taken(l, q, t), o, r) <==> Undisturbed(l, r, t)
  {
    var n, p, m := l.next(t), l.prev(t), Taken(l, q, t);
    if Undisturbed(l, r, t) {
      forall i: nat | i < |r| ensures Edge(m, r, i) { assert Edge(l, r, i); }
    }
    if Linked(m, r) {
      forall i: nat | i < |r| ensures r[i] == p ==> l.next(p) == n {
        assert Edge(l, r, i) && Edge(m, r, i);
      }
      forall i: nat | i < |r| ensures r[i] == n ==> l.prev(n) == p {
        EdgeBefore(l, r, i);
        EdgeBefore(m, r, i);
      }
    }
  }

  ghost predicate Undisturbed(l: Links, r: seq<nat>, t: nat) {
    && (l.prev(t) in r ==> l.next(l.prev(t)) == l.next(t))
    && (l.next(t) in r ==> l.prev(l.next(t)) == l.prev(t))
  }

  lemma {:induction false} TakeOthers(l: Links, q: nat, r: seq<nat>, j: nat, p: nat, other: seq<nat>)
    requires Shows(l, q, r) && Shows(l, p, other) && p != q && j < |r| && forall u: nat :: u in r ==> u !in other
    ensures Shows(Taken(l, q, r[j]), p, other)
  {
    EdgeBefore(l, r, j);
    assert r[if j == 0 then |r| - 1 else j - 1] in r && r[Succ(j, |r|)] in r;
    forall i: nat | i < |other| ensures Edge(Taken(l, q, r[j]), other, i) {
      assert Edge(l, other, i);
    }
  }

  lemma {:induction false} UnlinkedAt(r: seq<nat>, t: nat) returns (j: nat)
    requires Distinct(r) && t in r
    ensures j < |r| && r[j] == t && Unlinked(r, t) == Without(r, j)
  {
    if r[0] == t {
      j := 0;
    } else {
      DistinctTail(r);
      j := UnlinkedAt(r[1..], t);
      j := j + 1;
      assert [r[0]] + Without(r[1..], j - 1) == Without(r, j);
    }
  }

  lemma {:induction false} UnlinkedSame(r: seq<nat>, t: nat)
    requires t !in r
    ensures Unlinked(r, t) == r
  {
    if r != [] {
      UnlinkedSame(r[1..], t);
    }
  }

  // ---------------------------------------------------------------- steps

  // Lines 518-519, for the head of the ring, if there is one.
  function Popped(l: Links, q: nat): Links {
    match l.head(q)
    case None => l
    case Some(t) => Taken(l, q, t)
  }

  function Tail(r: seq<nat>): seq<nat> {
    if r == [] then [] else r[1..]
  }

  lemma {:induction false} PopLinks(l: Links, q: nat, r: seq<nat>)
    requires Shows(l, q, r) && Distinct(r)
    ensures Shows(Popped(l, q), q, Tail(r))
  {
    if r != [] {
      TakeLinks(l, q, r, 0);
      assert Without(r, 0) == r[1..];
    }
  }

  lemma {:induction false} PopOthers(l: Links, q: nat, r: seq<nat>, p: nat, other: seq<nat>)
    requires Shows(l, q, r) && Shows(l, p, other) && p != q && forall u: nat :: u in r ==> u !in other
    ensures Shows(Popped(l, q), p, other)
  {
    if r != [] { TakeOthers(l, q, r, 0, p, other); }
  }

  // What a step makes of the links.
  ghost function StepLinks(s: State, th: nat, a: Action, l: Links): Links
    requires Enabled(s, th, a)
  {
    var x := s.threads(th);
    match a
    case RunSection =>
      if x.run.unowned && s.tasklets(x.run.t).runq == None then Enqueued(l, x.run.q, x.run.t) else l
    case StopSection =>
      if s.tasklets(x.stop.t).runq == Some(x.stop.q) && s.queues(x.stop.q).current != Some(x.stop.t)
      then Taken(l, x.stop.q, x.stop.t) else l
    case EnterLoop(q, _) => Popped(l, q)
    case LoopWake => Popped(l, x.loop.q)
    case VetoReturn => if s.queues(x.loop.q).state == Stopped then Popped(l, x.loop.q) else l
    case HandlerReturn =>
      var rq := s.queues(x.loop.q);
      if rq.current == Some(x.loop.t) && rq.state == Requeue
      then Popped(Enqueued(l, x.loop.q, x.loop.t), x.loop.q)
      else Popped(l, x.loop.q)
    case _ => l
  }

  ghost predicate AllLinked(s: State, l: Links) {
    forall q: nat :: Shows(l, q, s.queues(q).ring)
  }

  // No tasklet is on two rings.
  lemma {:induction false} RingsApart(s: State, p: nat, q: nat)
    requires Core(s) && p != q
    ensures forall u: nat :: u in s.queues(p).ring ==> u !in s.queues(q).ring
  {
    assert QueueOk(s, p) && QueueOk(s, q);
  }

  lemma {:induction false} LinkedByPop(s: State, l: Links, q: nat, p: nat)
    requires Core(s) && AllLinked(s, l)
    ensures Shows(Popped(l, q), p, if p == q then Tail(s.queues(q).ring) else s.queues(p).ring)
  {
    assert QueueOk(s, q);
    if p == q {
      PopLinks(l, q, s.queues(q).ring);
    } else {
      RingsApart(s, q, p);
      PopOthers(l, q, s.queues(q).ring, p, s.queues(p).ring);
    }
  }

  lemma {:induction false} LinkedByEnqueue(s: State, l: Links, q: nat, t: nat, p: nat)
    requires Core(s) && AllLinked(s, l) && forall o: nat :: t !in s.queues(o).ring
    ensures var r := s.queues(q).ring; Shows(Enqueued(l, q, t), p, if p == q then r + [t] else s.queues(p).ring)
  {
    assert QueueOk(s, q);
    if p == q {
      EnqueueLinks(l, q, s.queues(q).ring, t);
    } else {
      RingsApart(s, q, p);
      EnqueueOthers(l, q, s.queues(q).ring, t, p, s.queues(p).ring);
    }
  }

  lemma {:induction false} LinkedByStop(s: State, th: nat, l: Links, p: nat)
    requires Core(s) && Enabled(s, th, StopSection) && AllLinked(s, l) && !Exec(s, th, StopSection).torn
    ensures Shows(StepLinks(s, th, StopSection, l), p, Exec(s, th, StopSection).queues(p).ring)
  {
    var t, q := s.threads(th).stop.t, s.threads(th).stop.q;
    if s.tasklets(t).runq == Some(q) && s.queues(q).current != Some(t) {
      assert QueueOk(s, q);
      var j := UnlinkedAt(s.queues(q).ring, t);
      if p == q {
        TakeLinks(l, q, s.queues(q).ring, j);
      } else {
        RingsApart(s, q, p);
        TakeOthers(l, q, s.queues(q).ring, j, p, s.queues(p).ring);
      }
    }
  }

  // The rings when a handler has returned.
  lemma {:induction false} ReturnRings(s: State, th: nat, p: nat)
    requires Core(s) && Enabled(s, th, HandlerReturn)
    ensures var x := s.threads(th).loop;
            var rq := s.queues(x.q);
            Exec(s, th, HandlerReturn).queues(p).ring ==
              if p != x.q then s.queues(p).ring
              else Tail(if rq.current == Some(x.t) && rq.state == Requeue then rq.ring + [x.t] else rq.ring)
  {
    var x := s.threads(th).loop;
    if p != x.q {
      HandlerReturnOthers(s, th, th + 1, p);
    } else if s.queues(x.q).current == Some(x.t) {
      var s1 := AfterHandler(s, th, x.q, x.t);
      assert s1.queues(p).ring == if s.queues(p).state == Requeue then s.queues(p).ring + [x.t] else s.queues(p).ring;
    }
  }

  // A tasklet whose handler has just run is on no ring.
  lemma {:induction false} CurrentUnlinked(s: State, q: nat, t: nat)
    requires Core(s) && s.queues(q).current == Some(t)
    ensures forall o: nat :: t !in s.queues(o).ring
  {
    assert QueueOk(s, q);
    forall o: nat ensures t !in s.queues(o).ring { assert QueueOk(s, o); }
  }

  lemma {:induction false} LinkedByReturn(s: State, th: nat, l: Links, p: nat)
    requires Core(s) && Enabled(s, th, HandlerReturn) && AllLinked(s, l)
    ensures Shows(StepLinks(s, th, HandlerReturn, l), p, Exec(s, th, HandlerReturn).queues(p).ring)
  {
    var q, t := s.threads(th).loop.q, s.threads(th).loop.t;
    var r := s.queues(q).ring;
    ReturnRings(s, th, p);
    if s.queues(q).current == Some(t) && s.queues(q).state == Requeue {
      var m := Enqueued(l, q, t);
      CurrentUnlinked(s, q, t);
      LinkedByEnqueue(s, l, q, t, q);
      LinkedByEnqueue(s, l, q, t, p);
      assert QueueOk(s, q);
      if p == q {
        DistinctSnoc(r, t);
        PopLinks(m, q, r + [t]);
      } else {
        RingsApart(s, q, p);
        PopOthers(m, q, r + [t], p, s.queues(p).ring);
      }
    } else {
      LinkedByPop(s, l, q, p);
    }
  }

  lemma {:induction false} LinkedByRun(s: State, th: nat, l: Links, p: nat)
    requires Core(s) && Enabled(s, th, RunSection) && AllLinked(s, l)
    ensures Shows(StepLinks(s, th, RunSection, l), p, Exec(s, th, RunSection).queues(p).ring)
  {
    var r := s.threads(th).run;
    if r.unowned && s.tasklets(r.t).runq == None {
      forall o: nat ensures r.t !in s.queues(o).ring { assert QueueOk(s, o); }
      LinkedByEnqueue(s, l, r.q, r.t, p);
    }
  }

  // Following the links is following the rings, step by step, until a stray is unlinked.
  lemma {:induction false} LinksKept(s: State, th: nat, a: Action, l: Links)
    requires Core(s) && Enabled(s, th, a) && AllLinked(s, l) && !Exec(s, th, a).torn
    ensures AllLinked(Exec(s, th, a), StepLinks(s, th, a, l))
  {
    forall p: nat ensures Shows(StepLinks(s, th, a, l), p, Exec(s, th, a).queues(p).ring) {
      match a
      case RunSection => LinkedByRun(s, th, l, p);
      case StopSection => LinkedByStop(s, th, l, p);
      case EnterLoop(q, _) => LinkedByPop(s, l, q, p);
      case LoopWake => LinkedByPop(s, l, s.threads(th).loop.q, p);
      case VetoReturn => LinkedByPop(s, l, s.threads(th).loop.q, p);
      case HandlerReturn => LinkedByReturn(s, th, l, p);
      case _ =>
    }
  }

  // When a stray is unlinked, no ring is damaged if and only if those that were its neighbours, as far as
  // they are on a ring, are neighbours still.
  lemma {:induction false} TornLinks(s: State, th: nat, a: Action, l: Links)
    requires Core(s) && Enabled(s, th, a) && AllLinked(s, l) && Exec(s, th, a).torn
    ensures a.StopSection?
    ensures AllLinked(Exec(s, th, a), StepLinks(s, th, a, l))
      <==> forall q: nat :: Undisturbed(l, s.queues(q).ring, s.threads(th).stop.t)
  {
    TornByStray(s, th, a);
    var t, q := s.threads(th).stop.t, s.threads(th).stop.q;
    assert ThreadOk(s, th) && QueueOk(s, q);
    UnlinkedSame(s.queues(q).ring, t);
    var s', m := Exec(s, th, a), StepLinks(s, th, a, l);
    assert s'.queues(q).ring == s.queues(q).ring;
    forall p: nat ensures Shows(m, p, s'.queues(p).ring) <==> Undisturbed(l, s.queues(p).ring, t) {
      StaleRemoval(l, q, t, p, s.queues(p).ring);
    }
  }

  // ---------------------------------------------------------------- runs

  ghost function LinksAfter(s: State, steps: seq<Step>, l: Links): Links
    requires Possible(s, steps)
    decreases |steps|
  {
    if steps == [] then l
    else LinksAfter(Exec(s, steps[0].th, steps[0].a), steps[1..], StepLinks(s, steps[0].th, steps[0].a, l))
  }

  // Over every run the links represent the rings, until a stray is unlinked.
  lemma {:induction false} RingsRepresented(s: State, steps: seq<Step>, l: Links)
    requires Core(s) && Possible(s, steps) && AllLinked(s, l)
    ensures After(s, steps).torn || AllLinked(After(s, steps), LinksAfter(s, steps, l))
    decreases |steps|
  {
    if steps != [] {
      var th, a := steps[0].th, steps[0].a;
      StepKeeps(s, th, a);
      if Exec(s, th, a).torn {
        assert steps[1..] == [];
      } else {
        LinksKept(s, th, a, l);
        RingsRepresented(Exec(s, th, a), steps[1..], StepLinks(s, th, a, l));
      }
    }
  }

  lemma {:induction false} InitLinked(s: State, l: Links)
    requires Init(s) && forall q: nat :: l.head(q) == None
    ensures AllLinked(s, l)
  {
  }
}
