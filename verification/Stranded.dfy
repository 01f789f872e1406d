/**
  Events that Close leaves behind: when exactly a run of the pipeline can go on to a point where a Close has
  returned and the buffer still holds something.  This is the other half of Pipeline.AfterCloseOnlyRacers.
 */
module Stranded {
  import opened Pipeline

  /** A run, and the state it has come to. */
  datatype Run = Run(ss: seq<State>, t: seq<Action>, now: State)

  ghost predicate IsRunTo(r: Run) {
    IsRun(r.ss, r.t) && r.now == r.ss[|r.t|]
  }

  /** `r'` is `r` and what may come after it. */
  ghost predicate Continues(r: Run, r': Run) {
    IsRunTo(r') && r.ss <= r'.ss && r.t <= r'.t
  }

  lemma Then(r: Run, a: Action) returns (r': Run)
    requires IsRunTo(r) && Enabled(r.now, a)
    ensures Continues(r, r') && r'.now == Do(r.now, a)
  {
    r' := Run(r.ss + [Do(r.now, a)], r.t + [a], Do(r.now, a));
    forall k | 0 <= k < |r'.t| ensures StepAt(r'.ss, r'.t, k) {
      if k < |r.t| { assert StepAt(r.ss, r.t, k); }
    }
  }

  /** A Close has returned, and the buffer is not empty. */
  ghost predicate LeftBehind(s: State) {
    s.buffer != [] && exists c :: c in s.closers && s.closers[c].Finished?
  }

  /** `e` is past the closed check and not yet enqueued. */
  predicate InFlight(s: State, e: EventId) { e in s.events && s.events[e].send.Passed? }

  // ---------------------------------------------------------------- a sender can always be brought to its end

  lemma FlightIsUntouched(s: State, e: EventId)
    requires Core(s) && InFlight(s, e)
    ensures e !in s.buffer && forall w :: w in s.senders ==> !Has(s.senders[w], e)
  {
    assert EventOk(s, e);
    NotHeld(s, e);
    forall i | 0 <= i < |s.buffer| ensures s.buffer[i] != e { }
  }

  /** What one move of a sender leaves alone. */
  ghost predicate OnlySender(s: State, w: SenderId, s': State) {
    s'.closers == s.closers && s'.done == s.done && s'.closed == s.closed &&
    s'.senders.Keys == s.senders.Keys && forall v :: v in s.senders && v != w ==> s'.senders[v] == s.senders[v]
  }

  lemma SenderMoves(r: Run, w: SenderId, m: SenderMove, e: EventId) returns (r': Run)
    requires IsRunTo(r) && w in r.now.senders && SenderEnabled(r.now, r.now.senders[w], m) && InFlight(r.now, e)
    ensures Continues(r, r') && r'.now == DoSender(r.now, w, r.now.senders[w], m)
    ensures OnlySender(r.now, w, r'.now) && InFlight(r'.now, e)
  {
    RunInv(r.ss, r.t, |r.t|);
    FlightIsUntouched(r.now, e);
    r' := Then(r, SenderDoes(w, m));
  }

  function Rank(p: SenderPhase): nat {
    match p
    case Trying(_, _, _) => 4
    case Posting(_, _, _) => 3
    case Selecting => 2
    case Draining => 1
    case Exited => 0
  }

  /** The move that brings a sender nearer to its end, once the pipeline is done. */
  function Onward(s: State, p: SenderPhase): SenderMove
    requires !p.Exited?
  {
    match p
    case Trying(_, _, _) => Attempt(false)
    case Posting(_, _, _) => Reply(Accepted, false)
    case Selecting => SeeDone
    case Draining => if s.buffer == [] then Exit else Take
  }

  lemma OnwardIsEnabled(s: State, w: SenderId)
    requires Core(s) && s.done && w in s.senders && !s.senders[w].Exited?
    ensures SenderEnabled(s, s.senders[w], Onward(s, s.senders[w]))
  {
    assert SenderOk(s, w, s.senders[w]);
  }

  lemma OnwardIsNearer(s: State, w: SenderId)
    requires w in s.senders && !s.senders[w].Exited?
    requires SenderEnabled(s, s.senders[w], Onward(s, s.senders[w]))
    ensures var s' := DoSender(s, w, s.senders[w], Onward(s, s.senders[w]));
      w in s'.senders &&
      (|s'.buffer| < |s.buffer| || (|s'.buffer| == |s.buffer| && Rank(s'.senders[w]) < Rank(s.senders[w])))
  {
  }

  lemma {:induction false} SenderExits(r: Run, w: SenderId, e: EventId) returns (r': Run)
    requires IsRunTo(r) && r.now.done && w in r.now.senders && InFlight(r.now, e)
    ensures Continues(r, r') && OnlySender(r.now, w, r'.now) && r'.now.senders[w].Exited? && InFlight(r'.now, e)
    decreases |r.now.buffer|, Rank(r.now.senders[w])
  {
    if r.now.senders[w].Exited? { return r; }
    RunInv(r.ss, r.t, |r.t|);
    OnwardIsEnabled(r.now, w);
    OnwardIsNearer(r.now, w);
    var next := SenderMoves(r, w, Onward(r.now, r.now.senders[w]), e);
    r' := SenderExits(next, w, e);
  }

  ghost function Busy(s: State): set<SenderId> {
    set w | w in s.senders && !s.senders[w].Exited?
  }

  lemma {:induction false} SendersExit(r: Run, e: EventId) returns (r': Run)
    requires IsRunTo(r) && r.now.done && InFlight(r.now, e)
    ensures Continues(r, r') && AllExited(r'.now) && InFlight(r'.now, e) && r'.now.closers == r.now.closers
    decreases |Busy(r.now)|
  {
    if AllExited(r.now) { return r; }
    var w :| w in r.now.senders && !r.now.senders[w].Exited?;
    var next := SenderExits(r, w, e);
    assert Busy(next.now) == Busy(r.now) - {w};
    r' := SendersExit(next, e);
  }

  // ---------------------------------------------------------------- and so can a Close

  /** What the moves of a closer leave alone, before it sweeps. */
  lemma CloserMoves(r: Run, c: CloserId, m: CloserMove, e: EventId) returns (r': Run)
    requires IsRunTo(r) && CloserEnabled(r.now, c, m) && InFlight(r.now, e)
    ensures Continues(r, r') && r'.now == DoCloser(r.now, c, m) && InFlight(r'.now, e)
  {
    RunInv(r.ss, r.t, |r.t|);
    FlightIsUntouched(r.now, e);
    r' := Then(r, CloserDoes(c, m));
  }

  /** Some Close has closed the pipeline for the senders. */
  lemma IsDone(r: Run, e: EventId) returns (r': Run, c: CloserId)
    requires IsRunTo(r) && r.now.closed && InFlight(r.now, e)
    ensures Continues(r, r') && r'.now.done && InFlight(r'.now, e) && c in r'.now.closers
    ensures var p := r'.now.closers[c]; p.Waiting? || p.Sweeping? || p.Finished?
  {
    RunInv(r.ss, r.t, |r.t|);
    c :| PastOnce(r.now, c);
    assert CloserOk(r.now, r.now.closers[c]);
    r' := r;
    if r'.now.closers[c].Publishing? { r' := CloserMoves(r', c, Publish, e); }
    if r'.now.closers[c].ClosingDone? { r' := CloserMoves(r', c, CloseDone, e); }
  }

  lemma {:induction false} Sweeps(r: Run, c: CloserId, e: EventId) returns (r': Run)
    requires IsRunTo(r) && c in r.now.closers && r.now.closers[c].Sweeping? && InFlight(r.now, e)
    ensures Continues(r, r') && c in r'.now.closers && r'.now.closers[c].Finished?
    ensures r'.now.buffer == [] && InFlight(r'.now, e)
    decreases |r.now.buffer|
  {
    if r.now.buffer == [] {
      r' := CloserMoves(r, c, Return, e);
    } else {
      RunInv(r.ss, r.t, |r.t|);
      var next := CloserMoves(r, c, DropOne, e);
      r' := Sweeps(next, c, e);
    }
  }

  /** From wherever the run is, an event that is past the check can be enqueued after a Close has returned. */
  lemma RacerCanStay(r: Run, e: EventId) returns (r': Run)
    requires IsRunTo(r) && r.now.closed && InFlight(r.now, e)
    ensures Continues(r, r') && LeftBehind(r'.now)
  {
    var c;
    r', c := IsDone(r, e);
    r' := SendersExit(r', e);
    if r'.now.closers[c].Waiting? { r' := CloserMoves(r', c, Joined, e); }
    if r'.now.closers[c].Sweeping? { r' := Sweeps(r', c, e); }
    if r'.now.buffer == [] {
      RunInv(r'.ss, r'.t, |r'.t|);
      r' := Then(r', SendDoes(e, Enqueue));
    }
    assert r'.now.closers[c].Finished?;
  }

  // ---------------------------------------------------------------- and otherwise nothing stays

  /** Closed, with no send in flight, and nothing left behind so far. */
  ghost predicate Settled(s: State) {
    s.closed && (forall e :: !InFlight(s, e)) && !LeftBehind(s)
  }

  lemma SendKeepsSettled(s: State, e: EventId, m: SendMove)
    requires Settled(s) && SendEnabled(s, e, m)
    ensures Settled(DoSend(s, e, m))
  {
    assert !InFlight(s, e);
    var s' := DoSend(s, e, m);
    forall d ensures !InFlight(s', d) { assert !InFlight(s, d); }
  }

  lemma SenderKeepsSettled(s: State, w: SenderId, p: SenderPhase, m: SenderMove)
    requires Settled(s) && SenderEnabled(s, p, m)
    ensures Settled(DoSender(s, w, p, m))
  {
    var s' := DoSender(s, w, p, m);
    forall d ensures !InFlight(s', d) { assert !InFlight(s, d); }
  }

  lemma CloserKeepsSettled(s: State, c: CloserId, m: CloserMove)
    requires Settled(s) && CloserEnabled(s, c, m)
    ensures Settled(DoCloser(s, c, m))
  {
    var s' := DoCloser(s, c, m);
    forall d ensures !InFlight(s', d) { assert !InFlight(s, d); }
    if s'.buffer != [] {
      forall d | d in s'.closers ensures !s'.closers[d].Finished? {
        if d in s.closers { assert !s.closers[d].Finished?; }
      }
    }
  }

  lemma StepKeepsSettled(s: State, a: Action, s': State)
    requires Settled(s) && Enabled(s, a) && s' == Do(s, a)
    ensures Settled(s')
  {
    match a
    case SendDoes(e, m) => SendKeepsSettled(s, e, m);
    case SenderDoes(w, m) => SenderKeepsSettled(s, w, s.senders[w], m);
    case CloserDoes(c, m) => CloserKeepsSettled(s, c, m);
    case Expire =>
      forall e ensures !InFlight(s', e) { assert !InFlight(s, e); }
  }

  lemma {:induction false} StaysSettled(r: Run, r': Run, k: nat)
    requires IsRunTo(r) && Continues(r, r') && Settled(r.now) && |r.t| <= k <= |r'.t|
    ensures Settled(r'.ss[k])
  {
    if k == |r.t| {
      assert r'.ss[k] == r.ss[k];
    } else {
      StaysSettled(r, r', k - 1);
      assert StepAt(r'.ss, r'.t, k - 1);
      StepKeepsSettled(r'.ss[k - 1], r'.t[k - 1], r'.ss[k]);
    }
  }

  // ---------------------------------------------------------------- exactly when

  /** From every point after the flag was set: something can be left behind exactly if something is already, or
      a send is past the check and has not enqueued yet. */
  lemma CanBeLeftBehindIff(r: Run)
    requires IsRunTo(r) && r.now.closed
    ensures (exists r' :: Continues(r, r') && LeftBehind(r'.now)) <==>
            LeftBehind(r.now) || exists e :: InFlight(r.now, e)
  {
    if LeftBehind(r.now) {
      assert Continues(r, r);
    } else if e :| InFlight(r.now, e) {
      var r' := RacerCanStay(r, e);
    } else {
      forall r' | Continues(r, r') ensures !LeftBehind(r'.now) { StaysSettled(r, r', |r'.t|); }
    }
  }

  /** At the moment the flag is set: exactly if some send is racing with it. */
  lemma RacersCanBeLeftBehind(r: Run, c: CloserId)
    requires IsRunTo(r) && r.t != [] && r.t[|r.t| - 1] == CloserDoes(c, SetClosed)
    ensures (exists r' :: Continues(r, r') && LeftBehind(r'.now)) <==> r.now.racing != {}
  {
    var n := |r.t| - 1;
    var s := r.ss[n];
    RunInv(r.ss, r.t, n);
    assert StepAt(r.ss, r.t, n);
    forall d | d in r.now.closers ensures !r.now.closers[d].Finished? {
      if d in s.closers { assert CloserOk(s, s.closers[d]); }
    }
    assert r.now.racing == PassedSends(s);
    if e :| e in r.now.racing {
      assert InFlight(r.now, e);
    } else {
      forall e ensures !InFlight(r.now, e) { assert e !in PassedSends(s); }
    }
    CanBeLeftBehindIff(r);
  }
}
