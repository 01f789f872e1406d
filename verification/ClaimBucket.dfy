/**
  The limit on claim attempts (mailgw-go/internal/adminui/auth.go): a bucket of five tokens refilling at
  one a second.  Times are seconds, exact, and do not decrease.
 */
module ClaimBucket {
  import opened Options

  const BURST := 5.0
  const REFILL := 1.0

  /** History: one call, and whether it was allowed. */
  datatype Call = Call(at: real, allowed: bool)

  function Min(a: real, b: real): real { if a < b then a else b }

  /** What the next call at `now` finds in the bucket. */
  function Found(calls: seq<Call>, now: real): (t: real)
    ensures t <= BURST
    decreases |calls|, 1
  {
    if calls == [] then BURST
    else Min(Left(calls) + (now - calls[|calls| - 1].at) * REFILL, BURST)
  }

  /** What the calls so far leave in it. */
  function Left(calls: seq<Call>): (t: real)
    requires calls != []
    ensures t <= BURST
    decreases |calls|, 0
  {
    var last := calls[|calls| - 1];
    Found(calls[..|calls| - 1], last.at) - (if last.allowed then 1.0 else 0.0)
  }

  ghost predicate IsRun(calls: seq<Call>) {
    calls == [] ||
    (var n := |calls| - 1;
     IsRun(calls[..n]) && (n > 0 ==> calls[n - 1].at <= calls[n].at) &&
     calls[n].allowed == (Found(calls[..n], calls[n].at) >= 1.0))
  }

  function Allowed(calls: seq<Call>): nat {
    if calls == [] then 0 else Allowed(calls[..|calls| - 1]) + (if calls[|calls| - 1].allowed then 1 else 0)
  }

  lemma {:induction false} NeverOverdrawn(calls: seq<Call>)
    requires IsRun(calls) && calls != []
    ensures 0.0 <= Left(calls)
  {
    var n := |calls| - 1;
    if n > 0 { NeverOverdrawn(calls[..n]); }
  }

  lemma {:induction false} PrefixIsRun(calls: seq<Call>, j: nat)
    requires IsRun(calls) && j <= |calls|
    ensures IsRun(calls[..j])
  {
    if j < |calls| {
      PrefixIsRun(calls[..|calls| - 1], j);
      assert calls[..|calls| - 1][..j] == calls[..j];
    } else {
      assert calls[..j] == calls;
    }
  }

  lemma {:induction false} Spending(calls: seq<Call>, i: nat)
    requires IsRun(calls) && i < |calls|
    ensures Allowed(calls[i..]) as real + Left(calls) <= BURST + (calls[|calls| - 1].at - calls[i].at)
  {
    var n := |calls| - 1;
    var before := calls[..n];
    assert calls[i..][..|calls[i..]| - 1] == before[i..];
    if i == n {
      assert calls[i..] == [calls[n]] && before[i..] == [];
    } else {
      Spending(before, i);
    }
  }

  /** Of the calls number i to j, all made within `window` seconds, at most 5 + window are allowed. */
  lemma RateBound(calls: seq<Call>, i: nat, j: nat, window: real)
    requires IsRun(calls) && i < j <= |calls| && calls[j - 1].at - calls[i].at <= window
    ensures Allowed(calls[i..j]) as real <= 5.0 + window
  {
    PrefixIsRun(calls, j);
    Spending(calls[..j], i);
    NeverOverdrawn(calls[..j]);
    assert calls[..j][i..] == calls[i..j];
  }

  /** The first call is allowed, and so is any call a second or more after the one before it. */
  lemma PatientCallIsAllowed(calls: seq<Call>, i: nat)
    requires IsRun(calls) && i < |calls| && (i > 0 ==> calls[i].at - calls[i - 1].at >= 1.0)
    ensures calls[i].allowed
  {
    PrefixIsRun(calls, i + 1);
    assert calls[..i + 1][..i] == calls[..i];
    if i > 0 {
      PrefixIsRun(calls, i);
      NeverOverdrawn(calls[..i]);
    }
  }

  function Same(c: Call, n: nat): (r: seq<Call>)
    ensures |r| == n && forall i :: 0 <= i < n ==> r[i] == c
  {
    seq(n, _ => c)
  }

  /** The bound is reached: five calls at one instant are all allowed, and only then is one refused. */
  lemma {:induction false} BurstIsReached(at: real, n: nat)
    requires n <= 5
    ensures var run := Same(Call(at, true), n);
      && IsRun(run) && Allowed(run) == n && Found(run, at) == BURST - n as real
      && (IsRun(run + [Call(at, false)]) <==> n == 5)
  {
    var run := Same(Call(at, true), n);
    if n > 0 {
      BurstIsReached(at, n - 1);
      assert run[..n - 1] == Same(Call(at, true), n - 1);
    }
    assert (run + [Call(at, false)])[..n] == run;
  }

  /** A run, one call longer: what the call found, and what it leaves. */
  lemma OneMoreCall(calls: seq<Call>, call: Call, found: real)
    requires IsRun(calls) && (calls != [] ==> calls[|calls| - 1].at <= call.at)
    requires found == Found(calls, call.at) && call.allowed == (found >= 1.0)
    ensures IsRun(calls + [call])
    ensures Left(calls + [call]) == found - (if call.allowed then 1.0 else 0.0)
  {
    assert (calls + [call])[..|calls|] == calls;
  }

  class Server {
    var claimTokens: real
    var claimLast: Option<real>
    ghost var calls: seq<Call>

    ghost predicate Valid()
      reads this
    {
      IsRun(calls) &&
      (claimLast.None? <==> calls == []) &&
      (calls != [] ==> claimLast == Some(calls[|calls| - 1].at) && claimTokens == Left(calls))
    }

    constructor ()
      ensures Valid() && calls == []
    {
      claimTokens, claimLast, calls := 0.0, None, [];
    }

    method AllowClaimAttempt(now: real) returns (ok: bool)
      requires Valid() && (claimLast.Some? ==> claimLast.value <= now)
      modifies this
      ensures Valid() && calls == old(calls) + [Call(now, ok)]
    {
      if claimLast.None? {
        claimTokens, claimLast := BURST, Some(now);
      } else {
        claimTokens := claimTokens + (now - claimLast.value) * REFILL;
        claimTokens := Min(claimTokens, BURST);
        claimLast := Some(now);
      }
      ok := claimTokens >= 1.0;
      OneMoreCall(calls, Call(now, ok), claimTokens);
      if ok { claimTokens := claimTokens - 1.0; }
      calls := calls + [Call(now, ok)];
    }
  }
}
