/**
  Spill file names and the order a replayer works in
  (mailgw-go/internal/events/client.go, spillName; replay.go, Pending).
 */
module SpillName {
  import opened ClaimName
  import opened Numbers

  /** The order sort.Strings uses. */
  predicate Before(a: string, b: string) {
    b != "" && (a == "" || a[0] < b[0] || (a[0] == b[0] && Before(a[1..], b[1..])))
  }

  lemma {:induction false} BeforeTransitive(a: string, b: string, c: string)
    requires Before(a, b) && Before(b, c)
    ensures Before(a, c)
  {
    if a != "" && a[0] == b[0] && b[0] == c[0] { BeforeTransitive(a[1..], b[1..], c[1..]); }
  }

  lemma {:induction false} BeforeTotal(a: string, b: string)
    ensures a == b || Before(a, b) || Before(b, a)
  {
    if a != "" && b != "" && a[0] == b[0] {
      BeforeTotal(a[1..], b[1..]);
      if a[1..] == b[1..] { assert a == [a[0]] + a[1..] && b == [b[0]] + b[1..]; }
    }
  }

  ghost predicate Sorted(names: seq<string>) {
    forall i, j :: 0 <= i < j < |names| ==> Before(names[i], names[j])
  }

  /** Puts a name where it belongs in a sorted list. */
  function Insert(names: seq<string>, n: string): seq<string> {
    if names == [] then [n]
    else if Before(n, names[0]) then [n] + names
    else [names[0]] + Insert(names[1..], n)
  }

  lemma {:induction false} InsertSorted(names: seq<string>, n: string)
    requires Sorted(names) && n !in names
    ensures Sorted(Insert(names, n))
    ensures forall m :: m in Insert(names, n) <==> m in names || m == n
  {
    if names != [] {
      var r := Insert(names, n);
      if Before(n, names[0]) {
        forall j | 0 < j < |r| ensures Before(r[0], r[j]) {
          if j > 1 { BeforeTransitive(n, names[0], names[j - 1]); }
        }
      } else {
        InsertSorted(names[1..], n);
        BeforeTotal(n, names[0]);
        forall j | 0 < j < |r| ensures Before(r[0], r[j]) {
          assert r[j] in Insert(names[1..], n);
          if r[j] != n {
            var i :| 0 <= i < |names[1..]| && names[1..][i] == r[j];
            assert names[i + 1] == r[j];
          }
        }
      }
    }
  }

  // ---------------------------------------------------------------- chronology

  /** %0<width>d */
  function Padded(n: nat, width: nat): string {
    if width == 0 then "" else Padded(n / 10, width - 1) + [DigitChar(n % 10)]
  }

  function Pow10(k: nat): nat {
    if k == 0 then 1 else 10 * Pow10(k - 1)
  }

  lemma {:induction false} PaddedLength(n: nat, width: nat)
    ensures |Padded(n, width)| == width
  {
    if width > 0 { PaddedLength(n / 10, width - 1); }
  }

  lemma {:induction false} BeforeExtends(a: string, x: string, b: string, y: string)
    requires |a| == |b| && Before(a, b)
    ensures Before(a + x, b + y)
  {
    assert (a + x)[0] == a[0] && (b + y)[0] == b[0];
    if a[0] == b[0] {
      BeforeExtends(a[1..], x, b[1..], y);
      assert (a + x)[1..] == a[1..] + x && (b + y)[1..] == b[1..] + y;
    }
  }

  lemma {:induction false} BeforeAfterEqual(a: string, x: string, y: string)
    requires Before(x, y)
    ensures Before(a + x, a + y)
  {
    if a == "" {
      assert a + x == x && a + y == y;
    } else {
      BeforeAfterEqual(a[1..], x, y);
      assert (a + x)[1..] == a[1..] + x && (a + y)[1..] == a[1..] + y;
    }
  }

  lemma {:induction false} PaddedOrders(m: nat, n: nat, width: nat)
    requires m < n < Pow10(width)
    ensures Before(Padded(m, width), Padded(n, width))
  {
    if width > 0 {
      PaddedLength(m / 10, width - 1);
      PaddedLength(n / 10, width - 1);
      if m / 10 < n / 10 {
        PaddedOrders(m / 10, n / 10, width - 1);
        BeforeExtends(Padded(m / 10, width - 1), [DigitChar(m % 10)], Padded(n / 10, width - 1), [DigitChar(n % 10)]);
      } else {
        assert m / 10 == n / 10 && m % 10 < n % 10;
        BeforeAfterEqual(Padded(m / 10, width - 1), [DigitChar(m % 10)], [DigitChar(n % 10)]);
      }
    }
  }

  function SpillName(nanos: nat, kind: string, seqno: nat): string {
    Padded(nanos, 19) + ("." + kind + "." + Padded(seqno % 10000, 4) + ".json")
  }

  /** Sorting the directory is sorting by spill time, for every time the 19 digits can hold. */
  lemma SpillOrderIsChronological(m: nat, n: nat, kind: string, kind': string, i: nat, j: nat)
    requires m < n < Pow10(19)
    ensures Before(SpillName(m, kind, i), SpillName(n, kind', j))
  {
    PaddedLength(m, 19);
    PaddedLength(n, 19);
    PaddedOrders(m, n, 19);
    BeforeExtends(Padded(m, 19), "." + kind + "." + Padded(i % 10000, 4) + ".json",
                  Padded(n, 19), "." + kind' + "." + Padded(j % 10000, 4) + ".json");
  }

  /** A spilled file is one the replayer lists. */
  lemma SpillIsPending(nanos: nat, kind: string, seqno: nat)
    ensures IsPending(SpillName(nanos, kind, seqno))
  {
    var f := SpillName(nanos, kind, seqno);
    PaddedLength(nanos, 19);
    assert f == (Padded(nanos, 19) + ("." + kind + "." + Padded(seqno % 10000, 4))) + ".json";
    assert f[|f| - 5..] == ".json";
    PaddedIsDigits(nanos, 19);
    assert f[0] == Padded(nanos, 19)[0];
    assert f[0] in Padded(nanos, 19);
  }

  lemma {:induction false} PaddedIsDigits(n: nat, width: nat)
    ensures forall c :: c in Padded(n, width) ==> '0' <= c <= '9'
  {
    if width > 0 { PaddedIsDigits(n / 10, width - 1); }
  }

  lemma {:induction false} PaddedInjective(m: nat, n: nat, width: nat)
    requires m < Pow10(width) && n < Pow10(width) && Padded(m, width) == Padded(n, width)
    ensures m == n
  {
    if width > 0 {
      var a, b := Padded(m / 10, width - 1), Padded(n / 10, width - 1);
      PaddedLength(m / 10, width - 1);
      PaddedLength(n / 10, width - 1);
      assert a == Padded(m, width)[..width - 1] == b;
      PaddedInjective(m / 10, n / 10, width - 1);
      assert Padded(m, width)[width - 1] == DigitChar(m % 10) && Padded(n, width)[width - 1] == DigitChar(n % 10);
    }
  }

  /** Two spills get the same file exactly when they are of one kind, fall in the same nanosecond, and their
      sequence numbers agree modulo ten thousand. */
  lemma SpillCollision(m: nat, kind: string, i: nat, n: nat, kind': string, j: nat)
    requires m < Pow10(19) && n < Pow10(19)
    ensures SpillName(m, kind, i) == SpillName(n, kind', j) <==>
            m == n && kind == kind' && i % 10000 == j % 10000
  {
    if SpillName(m, kind, i) == SpillName(n, kind', j) {
      var k := |kind|;
      SpillParts(m, kind, i);
      SpillParts(n, kind', j);
      assert |kind'| == k;
      PaddedInjective(m, n, 19);
      assert Pow10(4) == 10000;
      PaddedInjective(i % 10000, j % 10000, 4);
    }
  }

  lemma SpillParts(m: nat, kind: string, i: nat)
    ensures var f, k := SpillName(m, kind, i), |kind|;
      |f| == k + 30 && f[..19] == Padded(m, 19) && f[20..20 + k] == kind &&
      f[21 + k..25 + k] == Padded(i % 10000, 4)
  {
    PaddedLength(m, 19);
    PaddedLength(i % 10000, 4);
  }
}
