/** What is left of a ring when elements are taken out of it: the part of the reasoning about intrusive
    rings (src/poll_common.c, src/poll_poll.c) that is about sequences only. */
module Rings {
  function Succ(i: nat, n: nat): nat
    requires i < n
  {
    if i + 1 == n then 0 else i + 1
  }

  ghost predicate Distinct<T>(s: seq<T>) {
    forall i, j :: 0 <= i < j < |s| ==> s[i] != s[j]
  }

  ghost function Elements<T>(s: seq<T>): set<T> {
    set t | t in s
  }

  lemma {:induction false} TailElements<T>(s: seq<T>, i: nat)
    requires i < |s| && Distinct(s)
    ensures s[i..] == [s[i]] + s[i + 1..] && s[i] !in s[i + 1..]
    ensures Elements(s[i..]) - {s[i]} == Elements(s[i + 1..])
  {
  }

  function Without<T>(s: seq<T>, j: nat): seq<T>
    requires j < |s|
  {
    s[..j] + s[j + 1..]
  }

  // s without t.
  ghost function Removed<T>(s: seq<T>, t: T): seq<T> {
    if s == [] then [] else Removed(s[..|s| - 1], t) + (if s[|s| - 1] == t then [] else [s[|s| - 1]])
  }

  lemma {:induction false} RemovedIsSame<T>(s: seq<T>, t: T)
    requires t !in s
    ensures Removed(s, t) == s
  {
    if s != [] {
      RemovedIsSame(s[..|s| - 1], t);
    }
  }

  lemma {:induction false} RemovedMembers<T>(s: seq<T>, t: T)
    ensures forall u :: u in Removed(s, t) <==> u in s && u != t
  {
    if s != [] {
      RemovedMembers(s[..|s| - 1], t);
      assert s == s[..|s| - 1] + [s[|s| - 1]];
    }
  }

  lemma {:induction false} RemovedIsWithout<T>(s: seq<T>, j: nat)
    requires j < |s| && Distinct(s)
    ensures Removed(s, s[j]) == Without(s, j)
  {
    var n := |s| - 1;
    if j == n {
      RemovedIsSame(s[..n], s[j]);
      assert Without(s, j) == s[..n];
    } else {
      RemovedIsWithout(s[..n], j);
      assert Without(s, j) == Without(s[..n], j) + [s[n]];
    }
  }

  lemma {:induction false} WithoutMembers<T>(s: seq<T>, j: nat)
    requires j < |s| && Distinct(s)
    ensures Distinct(Without(s, j)) && forall u :: u in Without(s, j) <==> u in s && u != s[j]
  {
    var r := Without(s, j);
    forall u | u in s && u != s[j] ensures u in r {
      var k :| 0 <= k < |s| && s[k] == u;
      assert r[if k < j then k else k - 1] == u;
    }
  }

  // The elements of s that are in `keep`, in order.
  ghost function Kept<T>(s: seq<T>, keep: set<T>): seq<T> {
    if s == [] then []
    else Kept(s[..|s| - 1], keep) + (if s[|s| - 1] in keep then [s[|s| - 1]] else [])
  }

  lemma {:induction false} KeptMembers<T>(s: seq<T>, keep: set<T>)
    ensures forall t :: t in Kept(s, keep) <==> t in s && t in keep
  {
    if s != [] {
      KeptMembers(s[..|s| - 1], keep);
      assert s == s[..|s| - 1] + [s[|s| - 1]];
    }
  }

  // The ring when the first i timers have been dealt with: those due have gone, one by one.
  ghost function Scanned<T>(was: seq<T>, i: nat, keep: set<T>): seq<T>
    requires i <= |was|
  {
    if i == 0 then was
    else if was[i - 1] in keep then Scanned(was, i - 1, keep)
    else Removed(Scanned(was, i - 1, keep), was[i - 1])
  }

  lemma {:induction false} ScannedShape<T>(was: seq<T>, i: nat, keep: set<T>)
    requires i <= |was| && Distinct(was)
    ensures Scanned(was, i, keep) == Kept(was[..i], keep) + was[i..]
    ensures Distinct(Scanned(was, i, keep))
  {
    if i > 0 {
      ScannedShape(was, i - 1, keep);
      var kept, s, tail := Kept(was[..i - 1], keep), Scanned(was, i - 1, keep), was[i..];
      assert was[..i][..i - 1] == was[..i - 1];
      assert was[i - 1..] == [was[i - 1]] + tail;
      Middle(kept, was[i - 1], tail);
      assert s == kept + ([was[i - 1]] + tail);
      if was[i - 1] !in keep {
        Drop(kept, was[i - 1], tail);
        assert kept + [] == kept;
      }
    }
  }

  lemma {:induction false} Drop<T>(a: seq<T>, t: T, b: seq<T>)
    requires Distinct(a + ([t] + b))
    ensures Removed(a + ([t] + b), t) == a + b && Distinct(a + b)
  {
    Middle(a, t, b);
    RemovedIsWithout(a + ([t] + b), |a|);
    WithoutMembers(a + ([t] + b), |a|);
  }

  lemma {:induction false} Middle<T>(a: seq<T>, t: T, b: seq<T>)
    ensures var s := a + ([t] + b); s == (a + [t]) + b && s[|a|] == t && Without(s, |a|) == a + b
  {
  }
}
