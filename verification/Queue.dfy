/** The wait list of a queue (src/tasklet.c), under the lock that its user holds around each call. */
module QueueWaiters {
  class WaitList {
    var upCount: int
    var ring: seq<nat>           // the tasklets linked from head
    ghost var asleep: set<nat>   // those that tasklet_run has not been called on since they had to wait

    constructor (count: nat)
      ensures Valid() && upCount == count && ring == [] && asleep == {}
    {
      upCount, ring, asleep := count, [], {};
    }

    // With units to be had, the head of the list has been told.
    ghost predicate Valid()
      reads this
    {
      && upCount >= 0
      && (forall t :: t in asleep ==> t in ring)
      && (forall i, j :: 0 <= i < j < |ring| ==> ring[i] != ring[j])
      && (upCount > 0 && ring != [] ==> ring[0] !in asleep)
    }

    // wait_list_set(w, n, TRUE)
    method SetBroadcast(n: nat)
      requires Valid()
      modifies this
      ensures Valid() && upCount == n && ring == old(ring) && asleep == {}
    {
      upCount := n;
      var i := 0;
      while i < |ring|
        invariant i <= |ring| && ring == old(ring) && upCount == n
        invariant asleep <= old(asleep) && forall k :: 0 <= k < i ==> ring[k] !in asleep
      {
        asleep := asleep - {ring[i]};
        i := i + 1;
      }
    }

    // wait_list_down(w, 1, t), once t is on no other wait list
    method Down(t: nat) returns (ok: bool)
      requires Valid()
      modifies this
      ensures Valid() && ok == (old(upCount) >= 1)
      ensures upCount == old(upCount) - (if ok then 1 else 0)
      ensures ring == old(ring) + (if ok || t in old(ring) then [] else [t])
      ensures asleep == old(asleep) + (if ok then {} else {t})
    {
      ok := upCount >= 1;
      if ok {
        upCount := upCount - 1;
      } else {
        if t !in ring {
          ring := ring + [t];
        }
        asleep := asleep + {t};
      }
    }

    // wait_list_up
    method Up(n: nat)
      requires Valid()
      modifies this
      ensures Valid() && upCount == old(upCount) + n && ring == old(ring)
      ensures asleep == if ring == [] then old(asleep) else old(asleep) - {ring[0]}
    {
      upCount := upCount + n;
      if ring != [] {
        asleep := asleep - {ring[0]};
      }
    }

    // tasklet_unwait, for the tasklet at position i
    method Leave(i: nat)
      requires Valid() && i < |ring|
      modifies this
      ensures Valid() && upCount == old(upCount) && ring == old(ring)[..i] + old(ring)[i + 1..]
      ensures asleep <= old(asleep)
    {
      asleep := asleep - {ring[i]};
      ring := ring[..i] + ring[i + 1..];
      if i == 0 && ring != [] && upCount != 0 {
        asleep := asleep - {ring[0]};
      }
    }
  }
}

/** The bounded queue (src/queue.c): a ring buffer that grows, and one semaphore that counts free
    places or items, depending on which of them was last found wanting. */
module BoundedQueue {
  import opened Masks
  import opened Options
  import opened QueueWaiters

  // unsigned int; that no assignment leaves this type says that nothing wraps around.
  type uint = x: nat | x < 0x1_0000_0000

  const INT_MAX := 0x7fff_ffff

  datatype WaitersState = NEITHER | WAS_FULL | WAS_EMPTY

  // A buffer that has doubled whenever it was full but could not hold max_size items.
  predicate CapacityFor(capacity: nat, maxSize: nat) {
    PowerOfTwo(capacity) && 8 <= capacity && (capacity == 8 || capacity < 2 * maxSize) && capacity <= 0x8000_0000
  }

  // What a ring buffer holds from `read` up to `write`, which may lie on the next lap.
  function Window<T>(buf: seq<T>, read: nat, write: nat): (w: seq<T>)
    requires read < |buf| && read <= write <= read + |buf|
    ensures |w| == write - read
  {
    if write <= |buf| then buf[read..write] else buf[read..] + buf[..write - |buf|]
  }

  // Where the next item goes.
  function Slot(write: nat, size: nat): nat
    requires write < 2 * size
  {
    if write < size then write else write - size
  }

  lemma {:induction false} MaskIsSlot(write: nat, size: nat)
    requires PowerOfTwo(size) && write < 2 * size
    ensures And(write, size - 1) == Slot(write, size)
  {
    MaskIsMod(write, size);
    Remainder(write, size, if write < size then 0 else 1, Slot(write, size));
  }

  lemma {:induction false} WindowStore<T>(buf: seq<T>, read: nat, write: nat, item: T)
    requires read < |buf| && read <= write < read + |buf|
    ensures Window(buf[Slot(write, |buf|) := item], read, write + 1) == Window(buf, read, write) + [item]
  {
    var i := Slot(write, |buf|);
    var after := buf[i := item];
    if write < |buf| {
      assert after[read..write] == buf[read..write];
    } else {
      assert after[read..] == buf[read..];
      assert after[..i + 1] == buf[..i] + [item];
    }
  }

  lemma {:induction false} WindowShift<T>(buf: seq<T>, read: nat, write: nat)
    requires read < |buf| && read < write <= read + |buf|
    ensures Window(buf, read, write)[0] == buf[read]
    ensures read + 1 < |buf| ==> Window(buf, read + 1, write) == Window(buf, read, write)[1..]
    ensures read + 1 == |buf| ==> Window(buf, 0, write - |buf|) == Window(buf, read, write)[1..]
  {
  }

  lemma {:induction false} WindowGrow<T>(buf: seq<T>, read: nat, bigger: seq<T>)
    requires read < |buf| <= |bigger|
    requires bigger[..|buf|] == buf[read..] + buf[..read]
    ensures Window(bigger, 0, |buf|) == Window(buf, read, read + |buf|)
  {
  }

  class Queue<T(0)> {
    var items: array<T>
    var capacity: uint
    var read: uint
    var write: uint
    const maxSize: uint
    const waiters: WaitList
    var waitersState: WaitersState
    ghost var wants: map<nat, WaitersState>   // what each tasklet last found the queue to be

    constructor (maxSize: uint)
      ensures Valid() && Contents() == [] && this.maxSize == maxSize && fresh(items) && fresh(waiters)
    {
      capacity := 8;
      items := new T[8];
      read, write := 0, 0;
      this.maxSize := maxSize;
      waiters := new WaitList(0);
      waitersState := NEITHER;
      wants := map[];
      new;
      assert PowerOfTwo(2) && PowerOfTwo(4);
    }

    ghost predicate Layout()
      reads this
    {
      && CapacityFor(capacity, maxSize) && items.Length == capacity
      && read < capacity && read <= write <= read + capacity && write - read <= maxSize && write - read <= INT_MAX
    }

    // The items, oldest first.
    ghost function Contents(): (c: seq<T>)
      requires Layout()
      reads this, items
      ensures |c| == write - read
    {
      Window(items[..], read, write)
    }

    ghost function Size(): int
      reads this
    {
      write - read
    }

    // The meaning of the semaphore: free places, or items.
    ghost function Tokens(size: int): int
      reads this
    {
      match waitersState
      case NEITHER => 0
      case WAS_FULL => maxSize - size
      case WAS_EMPTY => size
    }

    // A tasklet that sleeps on the queue sleeps for what the semaphore counts.
    ghost predicate Sleepers()
      reads this, waiters
    {
      forall t :: t in waiters.asleep ==> t in wants && wants[t] == waitersState != NEITHER
    }

    ghost predicate Valid()
      reads this, waiters
    {
      && Layout() && waiters.Valid() && waiters.upCount == Tokens(Size()) && Sleepers()
      && (waitersState == WAS_FULL ==> maxSize <= INT_MAX) && waiters.upCount <= INT_MAX
    }

    method FlipWaitersState(st: WaitersState)
      requires waiters.Valid() && Sleepers() && waiters.upCount == Tokens(Size())
      requires (st == WAS_FULL && Size() == maxSize) || (st == WAS_EMPTY && Size() == 0)
      modifies this`waitersState, waiters
      ensures waiters.Valid() && Sleepers() && waiters.upCount == Tokens(Size())
      ensures waitersState == st && waiters.ring == old(waiters.ring)
    {
      if waitersState != st {
        waiters.SetBroadcast(0);
        waitersState := st;
      }
    }

    // The opening of queue_push (with WAS_FULL) and of queue_shift (with WAS_EMPTY): a caller that
    // the queue cannot serve is put on the wait list.
    method Admit(st: WaitersState, exhausted: bool, t: nat) returns (ok: bool)
      requires waiters.Valid() && Sleepers() && waiters.upCount == Tokens(Size())
      requires (st == WAS_FULL && exhausted == (Size() == maxSize)) || (st == WAS_EMPTY && exhausted == (Size() == 0))
      modifies this`waitersState, this`wants, waiters
      ensures ok == !exhausted && waiters.Valid() && Sleepers()
      ensures waiters.upCount == Tokens(Size()) - (if ok && waitersState == st then 1 else 0)
      ensures !ok ==> waitersState == st && t in waiters.ring && t in waiters.asleep
      ensures ok ==> waitersState == old(waitersState)
      ensures waiters.ring == old(waiters.ring) + (if ok || t in old(waiters.ring) then [] else [t])
    {
      if exhausted {
        FlipWaitersState(st);
      }
      ok := true;
      if waitersState == st {
        ok := waiters.Down(t);
        if !ok {
          wants := wants[t := st];
        }
      }
    }

    // The copy of the items into a larger buffer, oldest first.
    method Unroll(size: nat) returns (newItems: array<T>)
      requires read < items.Length <= size
      ensures fresh(newItems) && newItems.Length == size
      ensures newItems[..][..items.Length] == items[..][read..] + items[..][..read]
    {
      newItems := new T[size];
      var tail := items.Length - read;
      forall i | 0 <= i < tail { newItems[i] := items[read + i]; }
      forall i | 0 <= i < read { newItems[tail + i] := items[i]; }
    }

    // The part of queue_push that makes the buffer twice as large.
    method Resize()
      requires Layout() && write - read == capacity < maxSize && capacity < INT_MAX
      modifies this`items, this`capacity, this`read, this`write
      ensures Layout() && fresh(items) && Contents() == old(Contents())
      ensures Size() == old(Size()) < capacity as int
    {
      FitsTwice(capacity);
      var newItems := Unroll(capacity * 2);
      WindowGrow(items[..], read, newItems[..]);
      items := newItems;
      capacity := capacity * 2;
      write := write - read;
      read := 0;
    }

    // The part of queue_push that stores the item.
    method Store(item: T)
      requires Layout() && write - read < capacity && write - read < maxSize && write - read < INT_MAX
      modifies items, this`write
      ensures Layout() && Contents() == old(Contents()) + [item]
      ensures Size() == old(Size()) + 1
    {
      ghost var was := items[..];
      ghost var i := Slot(write, capacity);
      MaskIsSlot(write, capacity);
      WindowStore(was, read, write, item);
      items[And(write, capacity - 1)] := item;
      assert items[..] == was[i := item];
      write := write + 1;
    }

    // queue_push fails exactly when the queue is full; its caller is then on the wait list.  The count of
    // the semaphore is an int, and is not to overflow.
    method Push(item: T, t: nat) returns (ok: bool)
      requires Valid() && (maxSize <= INT_MAX || |Contents()| < INT_MAX)
      modifies this, items, waiters
      ensures Valid() && (items == old(items) || fresh(items))
      ensures ok == (|old(Contents())| < maxSize)
      ensures Contents() == old(Contents()) + (if ok then [item] else [])
      ensures !ok ==> t in waiters.asleep && waitersState == WAS_FULL
      // Only a caller that is refused is put on the wait list, and nobody is taken off.
      ensures waiters.ring == old(waiters.ring) + (if ok || t in old(waiters.ring) then [] else [t])
    {
      var size := write - read;
      ok := Admit(WAS_FULL, size >= maxSize, t);
      if !ok { return; }
      if size == capacity {
        Resize();
      }
      Store(item);
      if waitersState == WAS_EMPTY {
        waiters.Up(1);
      }
    }

    // The part of queue_shift that takes an item; the assertion of line 76 is its precondition.
    method Take() returns (res: T)
      requires Layout() && read != write
      modifies this`read, this`write
      ensures Layout() && Size() == old(Size()) - 1
      ensures res == old(Contents()[0]) && Contents() == old(Contents()[1..])
    {
      WindowShift(items[..], read, write);
      res := items[read];
      read := read + 1;
      if read == capacity {
        read := 0;
        write := write - capacity;
      }
    }

    // queue_shift fails exactly when the queue is empty; its caller is then on the wait list.
    method Shift(t: nat) returns (res: Option<T>)
      requires Valid()
      modifies this, waiters
      ensures Valid() && items == old(items)
      ensures old(Contents()) == [] ==> res == None && Contents() == []
      ensures old(Contents()) != [] ==> res == Some(old(Contents()[0])) && Contents() == old(Contents()[1..])
      ensures res == None ==> t in waiters.asleep && waitersState == WAS_EMPTY
      ensures waiters.ring == old(waiters.ring) + (if res.Some? || t in old(waiters.ring) then [] else [t])
    {
      var ok := Admit(WAS_EMPTY, read == write, t);
      if !ok { return None; }
      var item := Take();
      res := Some(item);
      assert Contents() == old(Contents()[1..]);
      if waitersState == WAS_FULL {
        waiters.Up(1);
      }
    }

    // While there are items, the tasklets that sleep for lack of one (if any) have a head that does
    // not; and likewise for free places.
    lemma {:induction false} NobodyForgotten(t: nat)
      requires Valid() && t in waiters.asleep && t in wants
      requires if wants[t] == WAS_EMPTY then Contents() != [] else |Contents()| < maxSize
      ensures waiters.ring != [] && waiters.ring[0] !in waiters.asleep && waiters.ring[0] != t
    {
    }
  }

  // ---------------------------------------------------------------- runs

  // A call by tasklet t; Quit is t leaving the wait list for whatever reason.
  datatype Call<T> = Push(item: T, t: nat) | Shift(t: nat) | Quit(t: nat)

  datatype Answer<T> = Pushed(ok: bool) | Shifted(item: Option<T>) | Gone

  // A bounded first-in first-out queue, as a value.
  datatype Fifo<T> = Fifo(contents: seq<T>, answers: seq<Answer<T>>)

  function Next<T>(maxSize: nat, f: Fifo<T>, call: Call<T>): Fifo<T> {
    match call
    case Push(item, _) =>
      if |f.contents| < maxSize then Fifo(f.contents + [item], f.answers + [Pushed(true)])
      else Fifo(f.contents, f.answers + [Pushed(false)])
    case Shift(_) =>
      if f.contents == [] then Fifo([], f.answers + [Shifted(None)])
      else Fifo(f.contents[1..], f.answers + [Shifted(Some(f.contents[0]))])
    case Quit(_) => Fifo(f.contents, f.answers + [Gone])
  }

  function Simulate<T>(maxSize: nat, calls: seq<Call<T>>): Fifo<T> {
    if calls == [] then Fifo([], [])
    else Next(maxSize, Simulate(maxSize, calls[..|calls| - 1]), calls[|calls| - 1])
  }

  // The ring buffer with its semaphore answers every sequence of calls as the plain queue does.
  method Run<T(0)>(maxSize: uint, calls: seq<Call<T>>) returns (answers: seq<Answer<T>>)
    requires maxSize <= INT_MAX || |calls| <= INT_MAX
    ensures answers == Simulate(maxSize, calls).answers
  {
    var q := new Queue<T>(maxSize);
    var i := 0;
    answers := [];
    while i < |calls|
      invariant i <= |calls| && q.Valid() && q.maxSize == maxSize && fresh(q) && fresh(q.items) && fresh(q.waiters)
      invariant Fifo(q.Contents(), answers) == Simulate(maxSize, calls[..i])
      invariant |q.Contents()| <= i
    {
      assert calls[..i + 1][..i] == calls[..i];
      var answer := Step(q, calls[i], answers);
      answers := answers + [answer];
      i := i + 1;
    }
    assert calls[..i] == calls;
  }

  method Step<T(0)>(q: Queue<T>, call: Call<T>, ghost before: seq<Answer<T>>) returns (answer: Answer<T>)
    requires q.Valid() && (call.Push? ==> q.maxSize <= INT_MAX || |q.Contents()| < INT_MAX)
    modifies q, q.items, q.waiters
    ensures q.Valid() && (q.items == old(q.items) || fresh(q.items))
    ensures Fifo(q.Contents(), before + [answer]) == Next(q.maxSize, Fifo(old(q.Contents()), before), call)
  {
    match call
    case Push(item, t) =>
      var ok := q.Push(item, t);
      answer := Pushed(ok);
    case Shift(t) =>
      var res := q.Shift(t);
      answer := Shifted(res);
    case Quit(t) =>
      if t in q.waiters.ring {
        var i :| 0 <= i < |q.waiters.ring| && q.waiters.ring[i] == t;
        q.waiters.Leave(i);
      }
      answer := Gone;
  }

  function Taken<T>(call: Call<T>, answer: Answer<T>): seq<T> {
    if call.Push? && answer == Pushed(true) then [call.item] else []
  }

  function Given<T>(answer: Answer<T>): seq<T> {
    if answer.Shifted? && answer.item.Some? then [answer.item.value] else []
  }

  function Accepted<T>(calls: seq<Call<T>>, answers: seq<Answer<T>>): seq<T>
    requires |answers| == |calls|
  {
    if calls == [] then [] else
    var n := |calls| - 1;
    Accepted(calls[..n], answers[..n]) + Taken(calls[n], answers[n])
  }

  function Delivered<T>(answers: seq<Answer<T>>): seq<T> {
    if answers == [] then [] else Delivered(answers[..|answers| - 1]) + Given(answers[|answers| - 1])
  }

  // In every run what was accepted is what was delivered, in the same order, then what is still there.
  lemma {:induction false} FirstInFirstOut<T>(maxSize: nat, calls: seq<Call<T>>)
    ensures var f := Simulate(maxSize, calls);
      && |f.answers| == |calls| && |f.contents| <= maxSize
      && Accepted(calls, f.answers) == Delivered(f.answers) + f.contents
  {
    if calls != [] {
      var n := |calls| - 1;
      FirstInFirstOut(maxSize, calls[..n]);
      var f := Simulate(maxSize, calls[..n]);
      NextKeeps(maxSize, f, calls[n], Delivered(f.answers));
      assert Simulate(maxSize, calls).answers[..n] == f.answers;
    }
  }

  lemma {:induction false} NextKeeps<T>(maxSize: nat, f: Fifo<T>, call: Call<T>, delivered: seq<T>)
    ensures var g := Next(maxSize, f, call);
      && |g.answers| == |f.answers| + 1 && g.answers[..|f.answers|] == f.answers
      && (|f.contents| <= maxSize ==> |g.contents| <= maxSize)
      && delivered + f.contents + Taken(call, g.answers[|f.answers|])
         == delivered + Given(g.answers[|f.answers|]) + g.contents
  {
    if call.Shift? && f.contents != [] {
      assert f.contents == [f.contents[0]] + f.contents[1..];
    }
  }
}
