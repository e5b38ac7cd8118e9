/** The perfect hash table for HTTP status codes (src/http_status_gen.c). */
module StatusHash {
  import opened Masks
  import opened Options

  const WORD: nat := 0x1_0000_0000   // unsigned int wraps here
  const NO_ENTRY: nat := 255

  // ((code * mult) >> 10) & (size - 1), in 32 bits
  function Hash(code: int, mult: nat, size: nat): (h: nat)
    requires PowerOfTwo(size)
    ensures h < size && h == code * mult % WORD / 1024 % size
  {
    MaskIsMod(code * mult % WORD / 1024, size);
    And(code * mult % WORD / 1024, size - 1)
  }

  ghost predicate CollisionFree(codes: seq<int>, mult: nat, size: nat)
    requires PowerOfTwo(size)
  {
    forall i, j :: 0 <= i < j < |codes| ==> Hash(codes[i], mult, size) != Hash(codes[j], mult, size)
  }

  // table_size << 10, where the search ends
  function Limit(size: nat): nat {
    size * 1024 % WORD
  }

  ghost predicate NoneBelow(codes: seq<int>, size: nat, limit: nat)
    requires PowerOfTwo(size)
  {
    forall m: nat :: m % 2 == 1 && m < limit ==> !CollisionFree(codes, m, size)
  }

  lemma {:induction false} NoneBelowNext(codes: seq<int>, size: nat, mult: nat)
    requires PowerOfTwo(size) && NoneBelow(codes, size, mult) && mult % 2 == 1 && !CollisionFree(codes, mult, size)
    ensures NoneBelow(codes, size, mult + 2)
  {
    forall m: nat | m % 2 == 1 && m < mult + 2 ensures !CollisionFree(codes, m, size) {
      assert m < mult || m == mult;
    }
  }

  // search: the least odd multiplier in range without a collision, or -1.  The marks that failed
  // attempts leave in `hits` are never cleared.
  method Search(codes: seq<int>, size: nat) returns (r: int)
    requires PowerOfTwo(size)
    ensures r == -1 || (0 < r < Limit(size) && r % 2 == 1 && CollisionFree(codes, r, size))
    ensures NoneBelow(codes, size, if r == -1 then Limit(size) else r)
  {
    var hits := new nat[size](_ => 0);
    var mult, limit := 1, Limit(size);
    while mult < limit
      invariant 0 < mult && mult % 2 == 1 && NoneBelow(codes, size, mult)
      invariant forall h :: 0 <= h < size ==> hits[h] < mult
    {
      var ok := Attempt(codes, size, mult, hits);
      if ok { return mult; }
      NoneBelowNext(codes, size, mult);
      mult := mult + 2;
    }
    r := -1;
  }

  // The inner loop: marks the hash values met with `mult`, up to the first met twice.
  method Attempt(codes: seq<int>, size: nat, mult: nat, hits: array<nat>) returns (ok: bool)
    requires PowerOfTwo(size) && hits.Length == size
    requires forall h :: 0 <= h < size ==> hits[h] < mult
    modifies hits
    ensures ok == CollisionFree(codes, mult, size)
    ensures forall h :: 0 <= h < size ==> hits[h] <= mult
  {
    var i := 0;
    while i < |codes|
      invariant i <= |codes| && CollisionFree(codes[..i], mult, size)
      invariant forall h :: 0 <= h < size ==>
        hits[h] <= mult && (hits[h] == mult <==> exists j :: 0 <= j < i && Hash(codes[j], mult, size) == h)
    {
      var hash := Hash(codes[i], mult, size);
      if hits[hash] == mult {
        assert !CollisionFree(codes, mult, size);
        return false;
      }
      hits[hash] := mult;
      i := i + 1;
    }
    assert codes[..i] == codes;
    ok := true;
  }

  // dump: the table that the generated lookup uses; its entries are unsigned chars.
  method Dump(codes: seq<int>, size: nat, mult: nat) returns (table: seq<nat>)
    requires PowerOfTwo(size)
    ensures |table| == size && Filled(codes, size, mult, table)
  {
    var t := new nat[size](_ => NO_ENTRY);
    var i := 0;
    while i < |codes|
      invariant i <= |codes|
      invariant forall h :: 0 <= h < size ==>
        && ((forall j :: 0 <= j < i ==> Hash(codes[j], mult, size) != h) ==> t[h] == NO_ENTRY)
        && (forall j ::
              0 <= j < i && Last(codes[..i], j, mult, size) && Hash(codes[j], mult, size) == h ==> t[h] == j % 256)
    {
      t[Hash(codes[i], mult, size)] := i % 256;
      i := i + 1;
      forall j | 0 <= j < i - 1 && Last(codes[..i], j, mult, size)
        ensures Last(codes[..i - 1], j, mult, size) && Hash(codes[j], mult, size) != Hash(codes[i - 1], mult, size)
      {
        assert codes[..i][i - 1] == codes[i - 1];
        assert forall k :: j < k < i - 1 ==> codes[..i - 1][k] == codes[..i][k];
      }
    }
    assert codes[..i] == codes;
    table := t[..];
  }

  // No later code has the hash value of the j-th.
  ghost predicate Last(codes: seq<int>, j: nat, mult: nat, size: nat)
    requires PowerOfTwo(size)
  {
    j < |codes| && forall k :: j < k < |codes| ==> Hash(codes[k], mult, size) != Hash(codes[j], mult, size)
  }

  // A slot holds the index of the last code that hashes to it, as an unsigned char.
  ghost predicate SlotOk(codes: seq<int>, size: nat, mult: nat, table: seq<nat>, h: nat)
    requires PowerOfTwo(size) && |table| == size && h < size
  {
    && ((forall j :: 0 <= j < |codes| ==> Hash(codes[j], mult, size) != h) ==> table[h] == NO_ENTRY)
    && (forall j ::
          0 <= j < |codes| && Last(codes, j, mult, size) && Hash(codes[j], mult, size) == h ==> table[h] == j % 256)
  }

  ghost predicate Filled(codes: seq<int>, size: nat, mult: nat, table: seq<nat>)
    requires PowerOfTwo(size) && |table| == size
  {
    forall h :: 0 <= h < size ==> SlotOk(codes, size, mult, table, h)
  }

  // The generated http_status_lookup.
  function Lookup(codes: seq<int>, table: seq<nat>, size: nat, mult: nat, code: int): Option<nat>
    requires PowerOfTwo(size) && |table| == size
  {
    var n := table[Hash(code, mult, size)];
    if n != NO_ENTRY && n < |codes| && codes[n] == code then Some(n) else None
  }

  function LinearSearch(codes: seq<int>, code: int): (r: Option<nat>)
    ensures r.Some? ==> r.value < |codes| && codes[r.value] == code
    ensures r.None? ==> code !in codes
  {
    if codes == [] then None
    else
      var n := |codes| - 1;
      var r := LinearSearch(codes[..n], code);
      if r.None? && codes[n] == code then Some(n) else r
  }

  ghost predicate Unique(codes: seq<int>) {
    forall i, j :: 0 <= i < j < |codes| ==> codes[i] != codes[j]
  }

  ghost predicate Agrees(codes: seq<int>, table: seq<nat>, size: nat, mult: nat)
    requires PowerOfTwo(size) && |table| == size
  {
    forall code :: Lookup(codes, table, size, mult, code) == LinearSearch(codes, code)
  }

  // The generated lookup is right for every int exactly when no two codes collide and the mark for
  // an empty slot is no index.
  lemma {:induction false} LookupAgrees(codes: seq<int>, table: seq<nat>, size: nat, mult: nat)
    requires PowerOfTwo(size) && |table| == size && Filled(codes, size, mult, table) && Unique(codes)
    ensures Agrees(codes, table, size, mult) <==> CollisionFree(codes, mult, size) && |codes| <= NO_ENTRY
  {
    if CollisionFree(codes, mult, size) && |codes| <= NO_ENTRY {
      forall code ensures Lookup(codes, table, size, mult, code) == LinearSearch(codes, code) {
        FoundWhenFree(codes, table, size, mult, code);
      }
    } else if |codes| > NO_ENTRY {
      Missed(codes, table, size, mult, NO_ENTRY);
    } else {
      var i, j :| 0 <= i < j < |codes| && Hash(codes[i], mult, size) == Hash(codes[j], mult, size);
      Missed(codes, table, size, mult, i);
    }
  }

  lemma {:induction false} FoundWhenFree(codes: seq<int>, table: seq<nat>, size: nat, mult: nat, code: int)
    requires PowerOfTwo(size) && |table| == size && Filled(codes, size, mult, table) && Unique(codes)
    requires CollisionFree(codes, mult, size) && |codes| <= NO_ENTRY
    ensures Lookup(codes, table, size, mult, code) == LinearSearch(codes, code)
  {
    var h := Hash(code, mult, size);
    assert SlotOk(codes, size, mult, table, h);
    var found := LinearSearch(codes, code);
    if found.Some? {
      assert Last(codes, found.value, mult, size);
    }
  }

  // A code that shares its hash value with a later one, or whose index is the mark, is not found.
  lemma {:induction false} Missed(codes: seq<int>, table: seq<nat>, size: nat, mult: nat, i: nat)
    requires PowerOfTwo(size) && |table| == size && Filled(codes, size, mult, table) && Unique(codes)
    requires i < |codes| && (i == NO_ENTRY || (!Last(codes, i, mult, size) && |codes| <= NO_ENTRY))
    ensures Lookup(codes, table, size, mult, codes[i]) == None && LinearSearch(codes, codes[i]).Some?
  {
    var l := FindLast(codes, i, mult, size);
    var h, n := Hash(codes[i], mult, size), l % 256;
    assert table[h] == n by {
      assert SlotOk(codes, size, mult, table, h);
    }
    if n != i && n < |codes| {
      assert codes[n] != codes[i] by {
        if n < i { assert codes[n] != codes[i]; } else { assert codes[i] != codes[n]; }
      }
    }
  }

  lemma {:induction false} FindLast(codes: seq<int>, i: nat, mult: nat, size: nat) returns (l: nat)
    requires PowerOfTwo(size) && i < |codes|
    ensures i <= l < |codes| && Last(codes, l, mult, size) && Hash(codes[l], mult, size) == Hash(codes[i], mult, size)
    decreases |codes| - i
  {
    if Last(codes, i, mult, size) {
      l := i;
    } else {
      var k :| i < k < |codes| && Hash(codes[k], mult, size) == Hash(codes[i], mult, size);
      l := FindLast(codes, k, mult, size);
    }
  }

  // The highest power of two that is not above n.
  function Top(n: nat): (t: nat)
    requires n > 0
    ensures PowerOfTwo(t) && t <= n < 2 * t
  {
    if n == 1 then 1
    else
      assert 2 * Top(n / 2) / 2 == Top(n / 2);
      2 * Top(n / 2)
  }

  // n & (n - 1) clears the lowest bit that is set.
  lemma {:induction false} LowestBitCleared(n: nat)
    requires n > 0
    ensures var m := And(n, n - 1); m < n && (m == 0 <==> PowerOfTwo(n)) && (m > 0 ==> Top(m) == Top(n))
  {
    var h := n / 2;
    if n == 2 * h + 1 {
      OddCleared(h);
      assert 2 * h / 2 == h;
    } else {
      assert n == 2 * h;
      LowestBitCleared(h);
      EvenCleared(h);
      var m := And(h, h - 1);
      assert 2 * m / 2 == m;
    }
  }

  lemma {:induction false} EvenCleared(h: nat)
    requires h > 0
    ensures And(2 * h, 2 * h - 1) == 2 * And(h, h - 1)
  {
    assert 2 * h - 1 == 2 * (h - 1) + 1;
    AndOdd(2 * h, h - 1);
    assert 2 * h / 2 == h && 2 * h % 2 == 0;
  }

  lemma {:induction false} OddCleared(h: nat)
    ensures And(2 * h + 1, 2 * h) == 2 * h
  {
    AndOdd(2 * h, h);
    AndSelf(h);
    AndSwap(2 * h + 1, 2 * h);
  }

  lemma {:induction false} AndSelf(n: nat)
    ensures And(n, n) == n
  {
    if n > 0 {
      AndSelf(n / 2);
    }
  }

  lemma {:induction false} AndSwap(a: nat, b: nat)
    ensures And(a, b) == And(b, a)
  {
    if a > 0 && b > 0 {
      AndSwap(a / 2, b / 2);
    }
  }

  // power_of_2: the least power of two that is not below n.
  method PowerAtLeast(n: nat) returns (r: nat)
    requires 2 <= n <= 0x8000_0000
    ensures PowerOfTwo(r) && n <= r < WORD
    ensures forall p: nat :: PowerOfTwo(p) && n <= p ==> r <= p
  {
    var m := n - 1;
    while true
      invariant 0 < m < n && Top(m) == Top(n - 1)
      decreases m
    {
      var oneLessBit := And(m, m - 1);
      LowestBitCleared(m);
      if oneLessBit == 0 {
        break;
      }
      m := oneLessBit;
    }
    NoPowerBetween(m, Top(m));
    r := 2 * m;
    assert r / 2 == m;
    forall p: nat | PowerOfTwo(p) && n <= p ensures r <= p {
      if p < r {
        NoPowerBetween(p, m);
      }
    }
  }

  // main: the first table size, from the least that could do, with a collision-free multiplier.  Below
  // two codes power_of_2 is zero, and main does not end.
  method Generate(codes: seq<int>) returns (found: bool, size: nat, mult: nat, table: seq<nat>)
    requires 2 <= |codes| <= 0x8000_0000
    ensures found ==> PowerOfTwo(size) && |table| == size && (Agrees(codes, table, size, mult) <==> |codes| <= NO_ENTRY)
    ensures !found ==> forall p: nat :: PowerOfTwo(p) && |codes| <= p < 600 * 2 ==> NoneBelow(codes, p, Limit(p))
  {
    size := PowerAtLeast(|codes|);
    while size < 600 * 2
      invariant PowerOfTwo(size) && |codes| <= size
      invariant forall p: nat :: PowerOfTwo(p) && |codes| <= p < size ==> NoneBelow(codes, p, Limit(p))
      decreases 600 * 2 - size
    {
      var r := Search(codes, size);
      if r >= 0 {
        mult := r;
        table := Dump(codes, size, mult);
        assert Unique(codes);
        LookupAgrees(codes, table, size, mult);
        return true, size, mult, table;
      }
      forall p: nat | PowerOfTwo(p) && p < 2 * size ensures p <= size {
        NoPowerBetween(p, size);
      }
      assert 2 * size / 2 == size;
      size := 2 * size;
    }
    found, mult, table := false, 0, [];
  }
}
