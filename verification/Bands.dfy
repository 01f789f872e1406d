/**
  Preference order: a stable sort, then a shuffle inside each run of equal preference
  (mailgw-go/internal/deliver/mx.go, sortHosts; mailgw-go/internal/relays/group.go, Attempts).
 */
module Bands {
  predicate SortedBy<T>(s: seq<T>, rank: T -> int) {
    forall i, j :: 0 <= i < j < |s| ==> rank(s[i]) <= rank(s[j])
  }

  /** The elements of one preference, in order. */
  function Band<T>(s: seq<T>, rank: T -> int, r: int): seq<T> {
    if s == [] then []
    else (if rank(s[0]) == r then [s[0]] else []) + Band(s[1..], rank, r)
  }

  function InsertStable<T>(x: T, s: seq<T>, rank: T -> int): seq<T> {
    if s == [] || rank(x) <= rank(s[0]) then [x] + s else [s[0]] + InsertStable(x, s[1..], rank)
  }

  function StableSort<T>(s: seq<T>, rank: T -> int): seq<T> {
    if s == [] then [] else InsertStable(s[0], StableSort(s[1..], rank), rank)
  }

  /** `t` is `s` with elements of equal preference exchanged, and nothing else. */
  ghost predicate SameUpToBands<T>(s: seq<T>, t: seq<T>, rank: T -> int) {
    |s| == |t| && multiset(s) == multiset(t) && forall i :: 0 <= i < |s| ==> rank(s[i]) == rank(t[i])
  }

  // ---------------------------------------------------------------- the stable sort

  lemma {:induction false} InsertKeeps<T>(x: T, s: seq<T>, rank: T -> int)
    ensures multiset(InsertStable(x, s, rank)) == multiset(s) + multiset{x}
  {
    if s == [] || rank(x) <= rank(s[0]) {
    } else {
      InsertKeeps(x, s[1..], rank);
      assert s == [s[0]] + s[1..];
    }
  }

  lemma {:induction false} InsertAtLeast<T>(x: T, s: seq<T>, rank: T -> int, least: int)
    requires least <= rank(x) && forall i :: 0 <= i < |s| ==> least <= rank(s[i])
    ensures forall i :: 0 <= i < |InsertStable(x, s, rank)| ==> least <= rank(InsertStable(x, s, rank)[i])
  {
    if s == [] || rank(x) <= rank(s[0]) {
    } else {
      InsertAtLeast(x, s[1..], rank, least);
    }
  }

  lemma {:induction false} InsertSorted<T>(x: T, s: seq<T>, rank: T -> int)
    requires SortedBy(s, rank)
    ensures SortedBy(InsertStable(x, s, rank), rank)
  {
    if s == [] || rank(x) <= rank(s[0]) {
    } else {
      InsertSorted(x, s[1..], rank);
      InsertAtLeast(x, s[1..], rank, rank(s[0]));
    }
  }

  lemma BandCons<T>(x: T, s: seq<T>, rank: T -> int, r: int)
    ensures Band([x] + s, rank, r) == (if rank(x) == r then [x] else []) + Band(s, rank, r)
  {
    assert ([x] + s)[1..] == s;
  }

  lemma {:induction false} InsertBand<T>(x: T, s: seq<T>, rank: T -> int, r: int)
    requires SortedBy(s, rank)
    ensures Band(InsertStable(x, s, rank), rank, r) == (if rank(x) == r then [x] else []) + Band(s, rank, r)
  {
    if s == [] || rank(x) <= rank(s[0]) {
      BandCons(x, s, rank, r);
    } else {
      InsertBand(x, s[1..], rank, r);
      BandCons(s[0], InsertStable(x, s[1..], rank), rank, r);
      var band := Band(s[1..], rank, r);
      assert rank(x) == r ==> [] + ([x] + band) == [x] + ([] + band);
      assert [] + band == band;
    }
  }

  /** The sort puts the lowest preference first, keeps every element, and keeps the order within a
      preference. */
  lemma {:induction false} StableSortSorts<T>(s: seq<T>, rank: T -> int)
    ensures SortedBy(StableSort(s, rank), rank) && multiset(StableSort(s, rank)) == multiset(s)
    ensures |StableSort(s, rank)| == |s|
    ensures forall r :: Band(StableSort(s, rank), rank, r) == Band(s, rank, r)
  {
    if s != [] {
      StableSortSorts(s[1..], rank);
      var t := StableSort(s[1..], rank);
      InsertSorted(s[0], t, rank);
      InsertKeeps(s[0], t, rank);
      assert s == [s[0]] + s[1..];
      assert |multiset(StableSort(s, rank))| == |multiset(s)|;
      forall r ensures Band(StableSort(s, rank), rank, r) == Band(s, rank, r) {
        InsertBand(s[0], t, rank, r);
      }
    }
  }

  lemma {:induction false} BandNonEmpty<T>(s: seq<T>, rank: T -> int, i: nat)
    requires i < |s|
    ensures Band(s, rank, rank(s[i])) != []
  {
    if i > 0 { BandNonEmpty(s[1..], rank, i - 1); }
  }

  lemma {:induction false} BandRanks<T>(s: seq<T>, rank: T -> int, r: int)
    ensures forall x :: x in Band(s, rank, r) ==> rank(x) == r && x in s
  {
    if s != [] {
      BandRanks(s[1..], rank, r);
    }
  }

  ghost predicate SameBands<T(!new)>(s: seq<T>, t: seq<T>, rank: T -> int) {
    forall r :: Band(s, rank, r) == Band(t, rank, r)
  }

  /** With the same bands, neither of two sorted lists can begin later. */
  lemma FirstRank<T(!new)>(s: seq<T>, t: seq<T>, rank: T -> int)
    requires SortedBy(t, rank) && SameBands(s, t, rank) && s != []
    ensures t != [] && rank(t[0]) <= rank(s[0])
  {
    var r := rank(s[0]);
    BandNonEmpty(s, rank, 0);
    assert Band(s, rank, r) == Band(t, rank, r);
    BandRanks(t, rank, r);
    var x := Band(t, rank, r)[0];
    assert x in t && rank(x) == r;
  }

  /** With the same bands and the same first preference, two lists begin alike and go on with the same bands. */
  lemma SameFirst<T(!new)>(s: seq<T>, t: seq<T>, rank: T -> int)
    requires SameBands(s, t, rank) && s != [] && t != [] && rank(s[0]) == rank(t[0])
    ensures s[0] == t[0] && SameBands(s[1..], t[1..], rank)
  {
    var r := rank(s[0]);
    assert Band(s, rank, r) == [s[0]] + Band(s[1..], rank, r);
    assert Band(t, rank, r) == [t[0]] + Band(t[1..], rank, r);
    assert Band(s, rank, r)[0] == Band(t, rank, r)[0];
    forall q ensures Band(s[1..], rank, q) == Band(t[1..], rank, q) {
      assert Band(s, rank, q) == Band(t, rank, q);
      if q == r {
        assert Band(s, rank, q)[1..] == Band(s[1..], rank, q) && Band(t, rank, q)[1..] == Band(t[1..], rank, q);
      } else {
        assert [] + Band(s[1..], rank, q) == Band(s[1..], rank, q);
        assert [] + Band(t[1..], rank, q) == Band(t[1..], rank, q);
      }
    }
  }

  /** A sorted list is determined by its bands, so the stable sort is the only one there is. */
  lemma {:induction false} SortedIsItsBands<T(!new)>(s: seq<T>, t: seq<T>, rank: T -> int)
    requires SortedBy(s, rank) && SortedBy(t, rank) && SameBands(s, t, rank)
    ensures s == t
    decreases |s|
  {
    if s == [] {
      if t != [] { FirstRank(t, s, rank); }
    } else {
      FirstRank(s, t, rank);
      FirstRank(t, s, rank);
      SameFirst(s, t, rank);
      SortedIsItsBands(s[1..], t[1..], rank);
      assert s == [s[0]] + s[1..] && t == [t[0]] + t[1..];
    }
  }

  // ---------------------------------------------------------------- the shuffle

  ghost predicate InBand<T>(s: seq<T>, rank: T -> int, lo: nat, hi: nat)
    requires lo <= hi <= |s|
  {
    forall i :: lo <= i < hi ==> rank(s[i]) == rank(s[lo])
  }

  lemma SwapSame<T>(was: seq<T>, s: seq<T>, i: nat, j: nat, rank: T -> int)
    requires SameUpToBands(was, s, rank) && i < |s| && j < |s| && rank(s[i]) == rank(s[j])
    ensures SameUpToBands(was, s[i := s[j]][j := s[i]], rank)
  {
  }

  /** The library shuffle of one run, from its last element down.  `pick(i)` is the draw for element `i`. */
  method ShuffleRun<T>(a: array<T>, rank: T -> int, lo: nat, hi: nat, pick: nat -> nat, ghost was: seq<T>)
    requires lo < hi <= a.Length && InBand(a[..], rank, lo, hi) && SameUpToBands(was, a[..], rank)
    requires forall i :: pick(i) <= i
    modifies a
    ensures SameUpToBands(was, a[..], rank)
  {
    var i := hi - lo - 1;
    while i > 0
      invariant i < hi - lo && SameUpToBands(was, a[..], rank) && InBand(a[..], rank, lo, hi)
    {
      var x, y := lo + i, lo + pick(i);
      ghost var s := a[..];
      a[x], a[y] := a[y], a[x];
      SwapSame(was, s, x, y, rank);
      assert a[..] == s[x := s[y]][y := s[x]];
      i := i - 1;
    }
  }

  /** Each run of equal preference is shuffled in place; nothing crosses from one run to another. */
  method ShuffleBands<T>(a: array<T>, rank: T -> int, pick: (nat, nat) -> nat)
    requires forall k, i :: pick(k, i) <= i
    modifies a
    ensures SameUpToBands(old(a[..]), a[..], rank)
  {
    ghost var was := a[..];
    var start := 0;
    while start < a.Length
      invariant start <= a.Length && SameUpToBands(was, a[..], rank)
    {
      var end := start + 1;
      while end < a.Length && rank(a[end]) == rank(a[start])
        invariant start < end <= a.Length && InBand(a[..], rank, start, end)
      {
        end := end + 1;
      }
      if end - start > 1 { ShuffleRun(a, rank, start, end, i => pick(start, i), was); }
      start := end;
    }
  }

  /** sortHosts: in place, best preference first. */
  method SortHosts<T>(a: array<T>, rank: T -> int, pick: (nat, nat) -> nat)
    requires forall k, i :: pick(k, i) <= i
    modifies a
    ensures SameUpToBands(StableSort(old(a[..]), rank), a[..], rank)
    ensures SortedBy(a[..], rank) && multiset(a[..]) == multiset(old(a[..]))
  {
    ghost var was := a[..];
    var sorted := StableSort(a[..], rank);
    StableSortSorts(a[..], rank);
    forall i | 0 <= i < a.Length { a[i] := sorted[i]; }
    assert a[..] == sorted;
    ShuffleBands(a, rank, pick);
    assert SameUpToBands(sorted, a[..], rank);
  }

  /** Group.Attempts: a copy of the members, shuffled within each priority.  The group itself stays as it
      is, and an empty group has no attempts. */
  method Attempts<T>(members: seq<T>, rank: T -> int, pick: (nat, nat) -> nat) returns (order: seq<T>)
    requires forall k, i :: pick(k, i) <= i
    ensures SameUpToBands(members, order, rank)
    ensures SortedBy(members, rank) ==> SortedBy(order, rank)
  {
    if |members| == 0 { return []; }
    var a := new T[|members|](i requires 0 <= i < |members| => members[i]);
    assert a[..] == members;
    ShuffleBands(a, rank, pick);
    order := a[..];
  }
}
