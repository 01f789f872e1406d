/**
  The pool of idle relay connections (mailgw-go/internal/deliver/pool.go).

  Connections are opaque identities here; what a session is known to be is in module Delivery.
  Each method is one critical section of the pool's mutex, proved against a function on the
  idle map, and the limits are kept by every one of those functions.
 */
module Pool {
  import opened Options

  type ConnId = nat

  datatype Pooled = Pooled(conn: ConnId, messages: int, usedAt: int)

  type Idle = map<string, seq<Pooled>>

  /** A non-positive maxTotal, maxMessages or idleTimeout means no limit. */
  datatype Limits = Limits(maxPerRelay: int, maxTotal: int, maxMessages: int, idleTimeout: int)
  {
    function PerRelay(): int {
      if maxPerRelay <= 0 then 2 else maxPerRelay
    }
  }

  function At(idle: Idle, key: string): seq<Pooled> {
    if key in idle then idle[key] else []
  }

  /** A key whose list empties is dropped. */
  function SetIdle(idle: Idle, key: string, cs: seq<Pooled>): Idle {
    if cs == [] then idle - {key} else idle[key := cs]
  }

  // ---------------------------------------------------------------- counting

  ghost function Sum(idle: Idle, keys: set<string>): nat
    requires keys <= idle.Keys
  {
    if keys == {} then 0
    else
      var k :| k in keys;
      |idle[k]| + Sum(idle, keys - {k})
  }

  ghost function Total(idle: Idle): nat {
    Sum(idle, idle.Keys)
  }

  lemma {:induction false} SumWithout(idle: Idle, keys: set<string>, k: string)
    requires keys <= idle.Keys && k in keys
    ensures Sum(idle, keys) == |idle[k]| + Sum(idle, keys - {k})
    decreases keys
  {
    var p :| p in keys && Sum(idle, keys) == |idle[p]| + Sum(idle, keys - {p});
    if p != k {
      SumWithout(idle, keys - {p}, k);
      SumWithout(idle, keys - {k}, p);
      assert keys - {p} - {k} == keys - {k} - {p};
    }
  }

  lemma {:induction false} SumAgrees(m: Idle, n: Idle, keys: set<string>)
    requires keys <= m.Keys && keys <= n.Keys
    requires forall k :: k in keys ==> m[k] == n[k]
    ensures Sum(m, keys) == Sum(n, keys)
    decreases keys
  {
    if keys != {} {
      var k :| k in keys;
      SumWithout(m, keys, k);
      SumWithout(n, keys, k);
      SumAgrees(m, n, keys - {k});
    }
  }

  /** Replacing one key's list changes the total by the difference. */
  lemma TotalSet(idle: Idle, key: string, cs: seq<Pooled>)
    ensures Total(SetIdle(idle, key, cs)) == Total(idle) - |At(idle, key)| + |cs|
  {
    var idle' := SetIdle(idle, key, cs);
    var rest := idle.Keys - {key};
    assert idle'.Keys - {key} == rest;
    SumAgrees(idle, idle', rest);
    if key in idle { SumWithout(idle, idle.Keys, key); } else { assert rest == idle.Keys; }
    if key in idle' { SumWithout(idle', idle'.Keys, key); } else { assert rest == idle'.Keys; }
  }

  /** Every key holds at least one connection, so a cap on connections caps the keys. */
  lemma {:induction false} KeysBounded(idle: Idle, keys: set<string>)
    requires keys <= idle.Keys && forall k :: k in keys ==> idle[k] != []
    ensures |keys| <= Sum(idle, keys)
    decreases keys
  {
    if keys != {} {
      var k :| k in keys;
      SumWithout(idle, keys, k);
      KeysBounded(idle, keys - {k});
    }
  }

  // ---------------------------------------------------------------- the critical sections

  function Taken(idle: Idle, key: string): Idle {
    var cs := At(idle, key);
    if cs == [] then idle else SetIdle(idle, key, cs[..|cs| - 1])
  }

  ghost predicate Full(l: Limits, idle: Idle) {
    l.maxTotal > 0 && Total(idle) >= l.maxTotal
  }

  ghost predicate Accepts(l: Limits, idle: Idle, key: string, messages: int) {
    !(l.maxMessages > 0 && messages >= l.maxMessages) && !Full(l, idle) && |At(idle, key)| < l.PerRelay()
  }

  ghost function Offered(l: Limits, idle: Idle, key: string, c: Pooled): Idle {
    if Accepts(l, idle, key, c.messages) then idle[key := At(idle, key) + [c]] else idle
  }

  function Fresh(cs: seq<Pooled>, cutoff: int): seq<Pooled> {
    if cs == [] then []
    else
      var c := cs[|cs| - 1];
      Fresh(cs[..|cs| - 1], cutoff) + (if c.usedAt < cutoff then [] else [c])
  }

  function Stale(cs: seq<Pooled>, cutoff: int): seq<Pooled> {
    if cs == [] then []
    else
      var c := cs[|cs| - 1];
      Stale(cs[..|cs| - 1], cutoff) + (if c.usedAt < cutoff then [c] else [])
  }

  function Swept(idle: Idle, cutoff: int): Idle {
    map k | k in idle && Fresh(idle[k], cutoff) != [] :: Fresh(idle[k], cutoff)
  }

  // ---------------------------------------------------------------- the limits

  ghost predicate ListOk(l: Limits, cs: seq<Pooled>) {
    0 < |cs| <= l.PerRelay() &&
    forall c :: c in cs && l.maxMessages > 0 ==> c.messages < l.maxMessages
  }

  ghost predicate WithinLimits(l: Limits, idle: Idle) {
    (l.maxTotal > 0 ==> Total(idle) <= l.maxTotal) &&
    forall k :: k in idle ==> ListOk(l, idle[k])
  }

  lemma TakenKeepsLimits(l: Limits, idle: Idle, key: string)
    requires WithinLimits(l, idle)
    ensures WithinLimits(l, Taken(idle, key))
  {
    var cs := At(idle, key);
    if cs != [] {
      TotalSet(idle, key, cs[..|cs| - 1]);
      assert ListOk(l, idle[key]);
    }
  }

  lemma OfferedKeepsLimits(l: Limits, idle: Idle, key: string, c: Pooled)
    requires WithinLimits(l, idle)
    ensures WithinLimits(l, Offered(l, idle, key, c))
  {
    if Accepts(l, idle, key, c.messages) {
      var cs := At(idle, key) + [c];
      TotalSet(idle, key, cs);
      assert SetIdle(idle, key, cs) == idle[key := cs];
      assert key in idle ==> ListOk(l, idle[key]);
    }
  }

  /** The compaction keeps exactly the unexpired connections and hands out the rest. */
  lemma {:induction false} FreshIsFilter(cs: seq<Pooled>, cutoff: int)
    ensures forall c :: c in Fresh(cs, cutoff) ==> c.usedAt >= cutoff
    ensures forall c :: c in Stale(cs, cutoff) ==> c.usedAt < cutoff
    ensures multiset(Fresh(cs, cutoff)) + multiset(Stale(cs, cutoff)) == multiset(cs)
  {
    if cs != [] {
      var rest, c := cs[..|cs| - 1], cs[|cs| - 1];
      FreshIsFilter(rest, cutoff);
      assert cs == rest + [c];
      assert Fresh(cs, cutoff) == Fresh(rest, cutoff) + (if c.usedAt < cutoff then [] else [c]);
      assert Stale(cs, cutoff) == Stale(rest, cutoff) + (if c.usedAt < cutoff then [c] else []);
    }
  }

  /** Filtering keeps the order: what comes first stays first. */
  lemma {:induction false} FreshKeepsOrder(cs: seq<Pooled>, ds: seq<Pooled>, cutoff: int)
    ensures Fresh(cs + ds, cutoff) == Fresh(cs, cutoff) + Fresh(ds, cutoff)
  {
    if ds == [] {
      assert cs + ds == cs;
    } else {
      FreshKeepsOrder(cs, ds[..|ds| - 1], cutoff);
      assert (cs + ds)[..|cs + ds| - 1] == cs + ds[..|ds| - 1];
    }
  }

  lemma {:induction false} FreshWithin(cs: seq<Pooled>, cutoff: int)
    ensures |Fresh(cs, cutoff)| <= |cs|
    ensures forall c :: c in Fresh(cs, cutoff) ==> c in cs
  {
    if cs != [] { FreshWithin(cs[..|cs| - 1], cutoff); }
  }

  lemma {:induction false} SumShrinks(m: Idle, n: Idle, keys: set<string>)
    requires n.Keys <= m.Keys && keys <= n.Keys
    requires forall k :: k in n ==> |n[k]| <= |m[k]|
    ensures Sum(n, keys) <= Sum(m, keys)
    decreases keys
  {
    if keys != {} {
      var k :| k in keys;
      SumWithout(m, keys, k);
      SumWithout(n, keys, k);
      SumShrinks(m, n, keys - {k});
    }
  }

  lemma {:induction false} SumMonotone(m: Idle, small: set<string>, big: set<string>)
    requires small <= big <= m.Keys
    ensures Sum(m, small) <= Sum(m, big)
    decreases big - small
  {
    if small != big {
      assert exists k :: k in big && k !in small;
      var k :| k in big && k !in small;
      SumWithout(m, small + {k}, k);
      assert small + {k} - {k} == small;
      SumMonotone(m, small + {k}, big);
    }
  }

  lemma SweptKeepsLimits(l: Limits, idle: Idle, cutoff: int)
    requires WithinLimits(l, idle)
    ensures WithinLimits(l, Swept(idle, cutoff))
  {
    var idle' := Swept(idle, cutoff);
    forall k | k in idle'
      ensures |idle'[k]| <= |idle[k]| && ListOk(l, idle'[k])
    {
      FreshWithin(idle[k], cutoff);
      assert ListOk(l, idle[k]);
    }
    SumShrinks(idle, idle', idle'.Keys);
    SumMonotone(idle, idle'.Keys, idle.Keys);
  }

  // ---------------------------------------------------------------- the pool itself

  /** The loop inside expired(): survivors are moved down over the array they are read from. */
  method Compact(a: array<Pooled>, cutoff: int) returns (n: nat, out: seq<Pooled>)
    modifies a
    ensures n <= a.Length
    ensures a[..n] == Fresh(old(a[..]), cutoff)
    ensures out == Stale(old(a[..]), cutoff)
  {
    ghost var was := a[..];
    n, out := 0, [];
    for i := 0 to a.Length
      invariant n <= i
      invariant forall j :: i <= j < a.Length ==> a[j] == was[j]
      invariant a[..n] == Fresh(was[..i], cutoff)
      invariant out == Stale(was[..i], cutoff)
    {
      var c := a[i];
      PartedNext(was, i, cutoff);
      ghost var kept := a[..n];
      if c.usedAt < cutoff {
        out := out + [c];
      } else {
        a[n] := c;
        n := n + 1;
        assert a[..n] == kept + [c];
      }
    }
    assert was[..a.Length] == was;
  }

  lemma PartedNext(cs: seq<Pooled>, i: nat, cutoff: int)
    requires i < |cs|
    ensures Fresh(cs[..i + 1], cutoff) == Fresh(cs[..i], cutoff) + (if cs[i].usedAt < cutoff then [] else [cs[i]])
    ensures Stale(cs[..i + 1], cutoff) == Stale(cs[..i], cutoff) + (if cs[i].usedAt < cutoff then [cs[i]] else [])
  {
    assert cs[..i + 1][..i] == cs[..i];
  }

  // ---------------------------------------------------------------- what is in the pool

  ghost function Under(idle: Idle, keys: set<string>): multiset<Pooled>
    requires keys <= idle.Keys
  {
    if keys == {} then multiset{}
    else
      var k :| k in keys;
      multiset(idle[k]) + Under(idle, keys - {k})
  }

  /** All the idle connections, each as often as it is filed. */
  ghost function Filed(idle: Idle): multiset<Pooled> {
    Under(idle, idle.Keys)
  }

  lemma {:induction false} UnderWithout(idle: Idle, keys: set<string>, k: string)
    requires keys <= idle.Keys && k in keys
    ensures Under(idle, keys) == multiset(idle[k]) + Under(idle, keys - {k})
    decreases keys
  {
    var p :| p in keys && Under(idle, keys) == multiset(idle[p]) + Under(idle, keys - {p});
    if p != k {
      UnderWithout(idle, keys - {p}, k);
      UnderWithout(idle, keys - {k}, p);
      assert keys - {p} - {k} == keys - {k} - {p};
    }
  }

  lemma {:induction false} UnderAgrees(m: Idle, n: Idle, keys: set<string>)
    requires keys <= m.Keys && keys <= n.Keys
    requires forall k :: k in keys ==> m[k] == n[k]
    ensures Under(m, keys) == Under(n, keys)
    decreases keys
  {
    if keys != {} {
      var k :| k in keys;
      UnderWithout(m, keys, k);
      UnderWithout(n, keys, k);
      UnderAgrees(m, n, keys - {k});
    }
  }

  /** Replacing one key's list exchanges the connections under that key, and no others. */
  lemma FiledSet(idle: Idle, key: string, cs: seq<Pooled>)
    ensures Filed(SetIdle(idle, key, cs)) + multiset(At(idle, key)) == Filed(idle) + multiset(cs)
  {
    var idle' := SetIdle(idle, key, cs);
    var rest := idle.Keys - {key};
    assert idle'.Keys - {key} == rest;
    UnderAgrees(idle, idle', rest);
    if key in idle { UnderWithout(idle, idle.Keys, key); } else { assert rest == idle.Keys; }
    if key in idle' { UnderWithout(idle', idle'.Keys, key); } else { assert rest == idle'.Keys; }
  }

  lemma Cancel(after: multiset<Pooled>, before: multiset<Pooled>, all: multiset<Pooled>, kept: multiset<Pooled>,
               gone: multiset<Pooled>)
    requires after + all == before + kept && kept + gone == all
    ensures after + gone == before
  {
    forall c ensures (after + gone)[c] == before[c] { assert (after + all)[c] == (before + kept)[c]; }
  }

  /** Sweeping one key hands out what it takes away. */
  lemma SweptKey(idle: Idle, key: string, cutoff: int)
    requires key in idle
    ensures Filed(SetIdle(idle, key, Fresh(idle[key], cutoff))) + multiset(Stale(idle[key], cutoff)) == Filed(idle)
  {
    var kept, stale := Fresh(idle[key], cutoff), Stale(idle[key], cutoff);
    FreshIsFilter(idle[key], cutoff);
    FiledSet(idle, key, kept);
    Cancel(Filed(SetIdle(idle, key, kept)), Filed(idle), multiset(idle[key]), multiset(kept), multiset(stale));
  }

  /** One key's list, compacted in its own array. */
  method Part(cs: seq<Pooled>, cutoff: int) returns (kept: seq<Pooled>, stale: seq<Pooled>)
    ensures kept == Fresh(cs, cutoff) && stale == Stale(cs, cutoff)
  {
    var a := new Pooled[|cs|](i requires 0 <= i < |cs| => cs[i]);
    assert a[..] == cs;
    var n;
    n, stale := Compact(a, cutoff);
    kept := a[..n];
  }

  /** The sweep has dealt with the keys not in `todo`. */
  ghost predicate PartlySwept(was: Idle, idle: Idle, todo: set<string>, cutoff: int) {
    (forall k :: k in todo ==> k in was && k in idle && idle[k] == was[k]) &&
    (forall k :: k !in todo ==> (k in idle <==> k in Swept(was, cutoff))) &&
    (forall k :: k !in todo && k in idle ==> idle[k] == Swept(was, cutoff)[k])
  }

  lemma SweptStep(was: Idle, idle: Idle, todo: set<string>, cutoff: int, k: string)
    requires PartlySwept(was, idle, todo, cutoff) && k in todo
    ensures PartlySwept(was, SetIdle(idle, k, Fresh(was[k], cutoff)), todo - {k}, cutoff)
  {
  }

  /** `c` is under some key, and too old. */
  ghost predicate StaleIn(was: Idle, cutoff: int, c: Pooled) {
    exists k :: k in was && c in Stale(was[k], cutoff)
  }

  ghost predicate StaleSoFar(was: Idle, todo: set<string>, cutoff: int, c: Pooled) {
    exists k :: k in was && k !in todo && c in Stale(was[k], cutoff)
  }

  lemma StaleStep(was: Idle, todo: set<string>, cutoff: int, k: string, c: Pooled)
    requires k in todo && k in was
    ensures StaleSoFar(was, todo - {k}, cutoff, c) <==> StaleSoFar(was, todo, cutoff, c) || c in Stale(was[k], cutoff)
  {
    if c in Stale(was[k], cutoff) { assert k !in todo - {k}; }
  }

  /** Where the sweep has got, and what it has taken out. */
  ghost predicate SweepAt(was: Idle, idle: Idle, todo: set<string>, cutoff: int, out: seq<Pooled>) {
    todo <= was.Keys && PartlySwept(was, idle, todo, cutoff) &&
    (forall c :: c in out <==> StaleSoFar(was, todo, cutoff, c)) &&
    Filed(idle) + multiset(out) == Filed(was)
  }

  lemma Assoc(a: multiset<Pooled>, b: multiset<Pooled>, c: multiset<Pooled>, d: multiset<Pooled>, e: multiset<Pooled>)
    requires a + b == c && c + d == e
    ensures a + (d + b) == e
  {
  }

  lemma SweepOne(was: Idle, idle: Idle, todo: set<string>, cutoff: int, out: seq<Pooled>, k: string)
    requires SweepAt(was, idle, todo, cutoff, out) && k in todo
    ensures k in idle && idle[k] == was[k]
    ensures SweepAt(was, SetIdle(idle, k, Fresh(was[k], cutoff)), todo - {k}, cutoff, out + Stale(was[k], cutoff))
  {
    var idle', stale := SetIdle(idle, k, Fresh(was[k], cutoff)), Stale(was[k], cutoff);
    SweptStep(was, idle, todo, cutoff, k);
    forall c ensures c in out + stale <==> StaleSoFar(was, todo - {k}, cutoff, c) {
      StaleStep(was, todo, cutoff, k, c);
    }
    SweptKey(idle, k, cutoff);
    Assoc(Filed(idle'), multiset(stale), Filed(idle), multiset(out), Filed(was));
    assert multiset(out + stale) == multiset(out) + multiset(stale);
  }

  lemma SweepBegins(was: Idle, cutoff: int)
    ensures SweepAt(was, was, was.Keys, cutoff, [])
  {
  }

  lemma SweepDone(was: Idle, idle: Idle, cutoff: int, out: seq<Pooled>)
    requires SweepAt(was, idle, {}, cutoff, out)
    ensures idle == Swept(was, cutoff) && Filed(idle) + multiset(out) == Filed(was)
    ensures forall c :: c in out <==> StaleIn(was, cutoff, c)
  {
    forall c ensures c in out <==> StaleIn(was, cutoff, c) {
      assert c in out <==> StaleSoFar(was, {}, cutoff, c);
    }
  }

  class ConnectionPool {
    const limits: Limits
    var idle: Idle

    ghost predicate Valid()
      reads this
    {
      WithinLimits(limits, idle)
    }

    constructor (l: Limits)
      ensures Valid() && limits == l && idle == map[]
    {
      limits := l;
      idle := map[];
    }

    /** Summed under the lock rather than kept as a counter. */
    method TotalLocked() returns (n: nat)
      ensures n == Total(idle)
    {
      n := 0;
      var todo := idle.Keys;
      while todo != {}
        invariant todo <= idle.Keys
        invariant n + Sum(idle, todo) == Total(idle)
        decreases todo
      {
        var k :| k in todo;
        SumWithout(idle, todo, k);
        n := n + |idle[k]|;
        todo := todo - {k};
      }
    }

    /** Most recently used first. */
    method Take(key: string) returns (c: Option<Pooled>)
      requires Valid()
      modifies this
      ensures Valid() && idle == Taken(old(idle), key)
      ensures c == if old(At(idle, key)) == [] then None else Some(old(At(idle, key)[|At(idle, key)| - 1]))
    {
      TakenKeepsLimits(limits, idle, key);
      var cs := At(idle, key);
      if |cs| == 0 { return None; }
      c := Some(cs[|cs| - 1]);
      idle := SetIdle(idle, key, cs[..|cs| - 1]);
    }

    /** Reports whether the global cap, and only that, turned the connection away; when `kept` is
        false the caller closes the connection outside the lock. */
    method Put(key: string, conn: ConnId, messages: int, now: int) returns (full: bool, kept: bool)
      requires Valid()
      modifies this
      ensures Valid() && idle == Offered(limits, old(idle), key, Pooled(conn, messages, now))
      // kept if the session has not carried too many messages, the pool is not full, nor the list of the relay
      ensures kept == (!(limits.maxMessages > 0 && messages >= limits.maxMessages) &&
                       !(limits.maxTotal > 0 && Total(old(idle)) >= limits.maxTotal) &&
                       |At(old(idle), key)| < (if limits.maxPerRelay <= 0 then 2 else limits.maxPerRelay))
      ensures full == (!(limits.maxMessages > 0 && messages >= limits.maxMessages) &&
                       limits.maxTotal > 0 && Total(old(idle)) >= limits.maxTotal)
      ensures idle == if kept then old(idle)[key := At(old(idle), key) + [Pooled(conn, messages, now)]] else old(idle)
    {
      OfferedKeepsLimits(limits, idle, key, Pooled(conn, messages, now));
      if limits.maxMessages > 0 && messages >= limits.maxMessages {
        return false, false;
      }
      var total := TotalLocked();
      full := limits.maxTotal > 0 && total >= limits.maxTotal;
      kept := !full && |At(idle, key)| < limits.PerRelay();
      if kept {
        idle := idle[key := At(idle, key) + [Pooled(conn, messages, now)]];
      }
    }

    /** Removes and returns everything idle for longer than the timeout. */
    method Expired(now: int) returns (out: seq<Pooled>)
      requires Valid()
      modifies this
      ensures Valid()
      ensures idle == if limits.idleTimeout <= 0 then old(idle) else Swept(old(idle), now - limits.idleTimeout)
      ensures limits.idleTimeout <= 0 ==> out == []
      ensures limits.idleTimeout > 0 ==>
                forall c :: c in out <==> StaleIn(old(idle), now - limits.idleTimeout, c)
      ensures Filed(idle) + multiset(out) == Filed(old(idle))
    {
      if limits.idleTimeout <= 0 { return []; }
      var cutoff := now - limits.idleTimeout;
      SweptKeepsLimits(limits, idle, cutoff);
      out := SweepAll(cutoff);
    }

    /** The loop over the keys. */
    method SweepAll(cutoff: int) returns (out: seq<Pooled>)
      modifies this
      ensures idle == Swept(old(idle), cutoff) && Filed(idle) + multiset(out) == Filed(old(idle))
      ensures forall c :: c in out <==> StaleIn(old(idle), cutoff, c)
    {
      out := [];
      ghost var was := idle;
      var todo := idle.Keys;
      SweepBegins(was, cutoff);
      while todo != {}
        invariant SweepAt(was, idle, todo, cutoff, out)
        decreases todo
      {
        var k :| k in todo;
        SweepOne(was, idle, todo, cutoff, out, k);
        var kept, stale := Part(idle[k], cutoff);
        idle := SetIdle(idle, k, kept);
        out := out + stale;
        todo := todo - {k};
      }
      SweepDone(was, idle, cutoff, out);
    }

    /** Shutdown takes the whole map; a later Put starts again from an empty one. */
    method Close() returns (out: Idle)
      requires Valid()
      modifies this
      ensures Valid() && idle == map[] && out == old(idle)
    {
      out := idle;
      idle := map[];
    }
  }

  /** At every point of every sequence of critical sections the pool is within its limits, so it
      also has no more keys than connections allowed. */
  lemma KeysWithinTotal(l: Limits, idle: Idle)
    requires WithinLimits(l, idle) && l.maxTotal > 0
    ensures |idle| <= l.maxTotal
  {
    forall k | k in idle ensures idle[k] != [] { assert ListOk(l, idle[k]); }
    KeysBounded(idle, idle.Keys);
    assert |idle| == |idle.Keys|;
  }
}
