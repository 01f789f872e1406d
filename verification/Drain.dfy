/**
  Closing the pipeline takes finitely many steps: once the flag is set, every step of a sender and of a Close uses
  up some of a fixed amount of work.
 */
module Drain {
  import opened Pipeline

  // ---------------------------------------------------------------- sums

  ghost function Sum(m: map<nat, nat>): nat
    decreases |m|
  {
    if m == map[] then 0 else var k :| k in m; m[k] + Sum(m - {k})
  }

  lemma {:induction false} SumWithout(m: map<nat, nat>, k: nat)
    requires k in m
    ensures Sum(m) == m[k] + Sum(m - {k})
    decreases |m|
  {
    var j: nat :| j in m && Sum(m) == m[j] + Sum(m - {j});
    if j != k {
      SumWithout(m - {j}, k);
      SumWithout(m - {k}, j);
      assert m - {j} - {k} == m - {k} - {j};
    }
  }

  /** One entry more, or another value in it. */
  lemma SumWith(m: map<nat, nat>, k: nat, v: nat)
    ensures Sum(m[k := v]) + (if k in m then m[k] else 0) == Sum(m) + v
  {
    var m' := m[k := v];
    SumWithout(m', k);
    if k in m {
      SumWithout(m, k);
      assert m' - {k} == m - {k};
    } else {
      assert m' - {k} == m;
    }
  }

  // ---------------------------------------------------------------- work

  /** Steps an event can still cost a sender that tries it for the a-th time. */
  function Tries(retries: nat, a: nat): nat { if a <= retries then 2 * (retries + 1 - a) else 0 }

  /** The most steps an event in the buffer can cost, and one in flight. */
  function Cost(s: State): nat { Tries(s.retries, 0) + 1 }

  function SenderWork(retries: nat, p: SenderPhase): nat {
    match p
    case Selecting => 2
    case Draining => 1
    case Trying(_, a, drain) => Tries(retries, a) + (if drain then 1 else 2)
    case Posting(_, a, drain) => (if a <= retries then 2 * (retries - a) + 1 else 1) + (if drain then 1 else 2)
    case Exited => 0
  }

  function CloserWork(p: CloserPhase): nat {
    match p
    case BeforeOnce => CALL
    case Publishing => 4
    case ClosingDone => 3
    case Waiting => 2
    case Sweeping => 1
    case Finished => 0
  }

  /** What a call of Close adds. */
  const CALL: nat := 3

  function Senders(s: State): map<nat, nat> { map w | w in s.senders :: SenderWork(s.retries, s.senders[w]) }

  function Closers(s: State): map<nat, nat> { map c | c in s.closers :: CloserWork(s.closers[c]) }

  /** Events that can still reach a sender or a sweep. */
  ghost function Afoot(s: State): nat { |s.buffer| + |PassedSends(s)| }

  ghost function Work(s: State): nat { Sum(Senders(s)) + Sum(Closers(s)) + Cost(s) * Afoot(s) }

  /** Steps of senders, and of Close once it is called. */
  function StepOf(a: Action): nat { if a.SenderDoes? || (a.CloserDoes? && !a.closer.CallClose?) then 1 else 0 }

  function CallOf(a: Action): nat { if a.CloserDoes? && a.closer.CallClose? then 1 else 0 }

  function Steps(t: seq<Action>): nat { if t == [] then 0 else Steps(t[..|t| - 1]) + StepOf(t[|t| - 1]) }

  function Calls(t: seq<Action>): nat { if t == [] then 0 else Calls(t[..|t| - 1]) + CallOf(t[|t| - 1]) }

  // ---------------------------------------------------------------- each step uses some of it

  lemma Less(c: nat, n: nat, m: nat)
    requires n <= m
    ensures c * n <= c * m
    ensures n < m ==> c * n + c <= c * m
  {
    if n < m { assert c * m == c * n + c * (m - n) && c * (m - n) >= c * 1 by { LessBy(c, m - n); } }
  }

  lemma LessBy(c: nat, d: nat)
    requires d > 0
    ensures c * d >= c
  {
  }

  /** No send is let in or through. */
  lemma SamePassed(s: State, e: EventId, v: Event)
    requires e in s.events && v.send == s.events[e].send
    ensures PassedSends(Set(s, e, v)) == PassedSends(s)
  {
  }

  lemma StillNotPassed(s: State, e: EventId, v: Event)
    requires !v.send.Passed? && (e in s.events ==> !s.events[e].send.Passed?)
    ensures PassedSends(Set(s, e, v)) == PassedSends(s)
  {
  }

  lemma OneLess(s: State, e: EventId, v: Event)
    requires !v.send.Passed? && e in s.events && s.events[e].send.Passed?
    ensures |PassedSends(Set(s, e, v))| + 1 == |PassedSends(s)|
  {
    assert PassedSends(Set(s, e, v)) == PassedSends(s) - {e};
  }

  lemma SamePassedSends(s: State, s': State)
    requires s'.events == s.events
    ensures PassedSends(s') == PassedSends(s)
  {
  }

  lemma EnqueueFlight(s: State, e: EventId)
    requires SendEnabled(s, e, Enqueue)
    ensures Afoot(DoSend(s, e, Enqueue)) <= Afoot(s)
  {
    var v := s.events[e].(send := Returned);
    if |s.buffer| < s.capacity {
      SamePassedSends(Set(s, e, v.(at := InBuffer)), DoSend(s, e, Enqueue));
      OneLess(s, e, v.(at := InBuffer));
    } else {
      OneLess(s, e, EndEvent(v, DroppedFull));
    }
  }

  lemma SendFlight(s: State, e: EventId, m: SendMove)
    requires s.closed && SendEnabled(s, e, m)
    ensures Afoot(DoSend(s, e, m)) <= Afoot(s)
  {
    match m
    case Arrive => StillNotPassed(s, e, Event(Arrived, 0, 0, [], InSend));
    case Check => StillNotPassed(s, e, EndEvent(s.events[e].(send := Returned), DroppedClosed));
    case Enqueue => EnqueueFlight(s, e);
  }

  lemma SteadyWork(s: State, s': State)
    requires s'.senders == s.senders && s'.closers == s.closers && s'.retries == s.retries && Afoot(s') <= Afoot(s)
    ensures Work(s') <= Work(s)
  {
    Less(Cost(s), Afoot(s'), Afoot(s));
  }

  lemma SendWork(s: State, e: EventId, m: SendMove)
    requires s.closed && SendEnabled(s, e, m)
    ensures Work(DoSend(s, e, m)) <= Work(s)
  {
    SendFlight(s, e, m);
    SteadyWork(s, DoSend(s, e, m));
  }

  /** The part of a sender's step in the sender itself. */
  lemma SenderStep(s: State, w: SenderId, m: SenderMove)
    requires Core(s) && w in s.senders && SenderEnabled(s, s.senders[w], m)
    ensures var s' := DoSender(s, w, s.senders[w], m);
      && w in s'.senders && s'.senders == s.senders[w := s'.senders[w]]
      && s'.closers == s.closers && s'.retries == s.retries
      && SenderWork(s.retries, s'.senders[w]) < SenderWork(s.retries, s.senders[w]) + (if m.Take? then Cost(s) else 0)
  {
    assert SenderOk(s, w, s.senders[w]);
  }

  lemma SenderFlight(s: State, w: SenderId, m: SenderMove)
    requires Core(s) && w in s.senders && SenderEnabled(s, s.senders[w], m)
    ensures Afoot(DoSender(s, w, s.senders[w], m)) + (if m.Take? then 1 else 0) == Afoot(s)
  {
    var s' := DoSender(s, w, s.senders[w], m);
    if m.SeeDone? || m.Exit? {
      SamePassedSends(s, s');
    } else {
      var (e, v, _) := SenderNext(s, w, s.senders[w], m);
      SamePassedSends(Set(s, e, v), s');
      SamePassed(s, e, v);
    }
  }

  /** A sender's share and the events afoot, put together. */
  lemma SenderShare(s: State, w: SenderId, p: SenderPhase, s': State, took: nat)
    requires w in s.senders && s'.senders == s.senders[w := p] && s'.closers == s.closers && s'.retries == s.retries
    requires took <= 1 && Afoot(s') + took == Afoot(s)
    requires SenderWork(s.retries, p) < SenderWork(s.retries, s.senders[w]) + (if took == 1 then Cost(s) else 0)
    ensures Work(s') < Work(s)
  {
    assert Senders(s') == Senders(s)[w := SenderWork(s.retries, p)];
    SumWith(Senders(s), w, SenderWork(s.retries, p));
    Less(Cost(s), Afoot(s'), Afoot(s));
  }

  lemma SenderUses(s: State, w: SenderId, m: SenderMove)
    requires Core(s) && w in s.senders && SenderEnabled(s, s.senders[w], m)
    ensures Work(DoSender(s, w, s.senders[w], m)) < Work(s)
  {
    var s' := DoSender(s, w, s.senders[w], m);
    SenderStep(s, w, m);
    SenderFlight(s, w, m);
    SenderShare(s, w, s'.senders[w], s', if m.Take? then 1 else 0);
  }

  lemma CloserFlight(s: State, c: CloserId, m: CloserMove)
    requires CloserEnabled(s, c, m)
    ensures PassedSends(DoCloser(s, c, m)) == PassedSends(s)
  {
  }

  lemma CloserShare(s: State, c: CloserId, p: CloserPhase, s': State)
    requires s'.closers == s.closers[c := p] && s'.senders == s.senders && s'.retries == s.retries
    requires Afoot(s') == Afoot(s)
    ensures Work(s') + (if c in s.closers then CloserWork(s.closers[c]) else 0) == Work(s) + CloserWork(p)
  {
    assert Closers(s') == Closers(s)[c := CloserWork(p)];
    SumWith(Closers(s), c, CloserWork(p));
    assert Senders(s') == Senders(s);
  }

  lemma DropUses(s: State, c: CloserId)
    requires CloserEnabled(s, c, DropOne)
    ensures Work(DoCloser(s, c, DropOne)) < Work(s)
  {
    var s' := DoCloser(s, c, DropOne);
    CloserFlight(s, c, DropOne);
    assert Senders(s') == Senders(s) && Closers(s') == Closers(s);
    Less(Cost(s), Afoot(s'), Afoot(s));
  }

  lemma CloserUses(s: State, c: CloserId, m: CloserMove)
    requires s.closed && CloserEnabled(s, c, m)
    ensures Work(DoCloser(s, c, m)) + StepOf(CloserDoes(c, m)) <= Work(s) + CALL * CallOf(CloserDoes(c, m))
  {
    if m.DropOne? {
      DropUses(s, c);
    } else {
      var s' := DoCloser(s, c, m);
      CloserFlight(s, c, m);
      CloserShare(s, c, s'.closers[c], s');
    }
  }

  // ---------------------------------------------------------------- whole runs

  lemma StaysClosed(s: State, a: Action, s': State)
    requires s.closed && Enabled(s, a) && s' == Do(s, a)
    ensures s'.closed
  {
    if a.SendDoes? {
      SendLeavesClose(s, a.e, a.send);
    } else if a.SenderDoes? {
      SenderLeavesClose(s, a.w, s.senders[a.w], a.sender);
    } else if a.CloserDoes? {
      CloserSetsClosed(s, a.c, a.closer);
    }
  }

  lemma StepUses(s: State, a: Action, s': State)
    requires Core(s) && s.closed && Enabled(s, a) && s' == Do(s, a)
    ensures Work(s') + StepOf(a) <= Work(s) + CALL * CallOf(a)
  {
    if a.SendDoes? {
      SendWork(s, a.e, a.send);
    } else if a.SenderDoes? {
      SenderUses(s, a.w, a.sender);
    } else if a.CloserDoes? {
      CloserUses(s, a.c, a.closer);
    } else {
      ExpireUses(s);
    }
  }

  lemma ExpireUses(s: State)
    ensures Work(s.(expired := true)) == Work(s)
  {
    var s' := s.(expired := true);
    assert Senders(s') == Senders(s) && Closers(s') == Closers(s) && PassedSends(s') == PassedSends(s);
  }

  lemma OneMore(t: seq<Action>, k: nat, n: nat)
    requires k < n <= |t|
    ensures Steps(t[k..n]) == Steps(t[k..n - 1]) + StepOf(t[n - 1])
    ensures Calls(t[k..n]) == Calls(t[k..n - 1]) + CallOf(t[n - 1])
  {
    assert t[k..n][..n - k - 1] == t[k..n - 1];
  }

  /** Once the flag is set, whatever the interleaving and whatever else is sent, the senders and the calls of Close
      take no more steps than the work there was, and a few for each further call. */
  lemma {:induction false} DrainTerminates(ss: seq<State>, t: seq<Action>, k: nat, n: nat)
    requires IsRun(ss, t) && k <= n <= |t| && ss[k].closed
    ensures ss[n].closed
    ensures Steps(t[k..n]) + Work(ss[n]) <= Work(ss[k]) + CALL * Calls(t[k..n])
    decreases n
  {
    if n > k {
      DrainTerminates(ss, t, k, n - 1);
      Onward(ss, t, n - 1);
      OneMore(t, k, n);
    }
  }

  lemma Onward(ss: seq<State>, t: seq<Action>, n: nat)
    requires IsRun(ss, t) && n < |t| && ss[n].closed
    ensures ss[n + 1].closed && Work(ss[n + 1]) + StepOf(t[n]) <= Work(ss[n]) + CALL * CallOf(t[n])
  {
    RunInv(ss, t, n);
    assert StepAt(ss, t, n);
    StaysClosed(ss[n], t[n], ss[n + 1]);
    StepUses(ss[n], t[n], ss[n + 1]);
  }

  /** In the work, the bound of the buffer: what is in it costs no more than a full one. */
  lemma BufferBoundsWork(ss: seq<State>, t: seq<Action>, k: nat)
    requires IsRun(ss, t) && k <= |t|
    ensures Work(ss[k]) <= Sum(Senders(ss[k])) + Sum(Closers(ss[k])) +
                           Cost(ss[k]) * (ss[k].capacity + |PassedSends(ss[k])|)
  {
    RunInv(ss, t, k);
    Less(Cost(ss[k]), Afoot(ss[k]), ss[k].capacity + |PassedSends(ss[k])|);
  }
}
