/**
  What the holder of a claim does with it, over whole runs of module Replay: which step follows which, and what
  the answer of logservice makes of the file (mailgw-go/internal/events/replay.go, one, handleUnparseable, reject).
 */
module Deeds {
  import opened Options
  import opened Replay

  /** Claim by claim what its holder has done with it. */
  type Log = map<nat, seq<Step>>

  function Of(l: Log, k: nat): seq<Step> { if k in l then l[k] else [] }

  function Logged(s: State, a: Action, l: Log): Log {
    if a.Run? && a.id in s.procs && Holding(s.procs[a.id]) && !a.step.Die? then
      l[s.procs[a.id].k := Of(l, s.procs[a.id].k) + [a.step]]
    else l
  }

  /** The deeds of the first `k` actions. */
  function History(ss: seq<State>, t: seq<Action>, k: nat): Log
    requires k <= |t| < |ss|
  {
    if k == 0 then map[] else Logged(ss[k - 1], t[k - 1], History(ss, t, k - 1))
  }

  // ---------------------------------------------------------------- the laws

  /** What may follow: a record is posted, set aside or put back once it has been read, and returned if it cannot be
      read; and each answer has its own end. */
  predicate Next(a: Step, b: Step) {
    match a
    case Read(ok) => b.Release? || (ok && (b.Post? || b.SetAside? || b.PutBack?))
    case Post => b.Reply?
    case Reply(ans) => if ans.Accepted? then b.Remove? else if ans.Refused? then b.File? else b.Release?
    case SetAside => b.File?
    case PutBack => b.Release?
    case _ => false
  }

  ghost predicate Orderly(d: seq<Step>) {
    (d != [] ==> d[0].Read?) && forall i :: 0 <= i < |d| - 1 ==> Next(d[i], d[i + 1])
  }

  /** How a claim got its end, if its own holder ended it. */
  predicate Earned(fate: Fate, d: seq<Step>) {
    match fate
    case Removed => d == [Read(true), Post, Reply(Accepted), Remove(true)]
    case Filed => d == [Read(true), Post, Reply(Refused), File(true)] || d == [Read(true), SetAside, File(true)]
    case Released =>
      d == [Read(true), Post, Reply(Unavailable), Release(true)] || d == [Read(true), PutBack, Release(true)] ||
      (|d| == 2 && d[0].Read? && d[1] == Release(true))
    case _ => true
  }

  // ---------------------------------------------------------------- invariant

  /** How far a holder has come. */
  predicate Doing(f: Phase, d: seq<Step>) {
    match f
    case Claimed(_, _) => d == []
    case Loaded(_, _, _) => d == [Read(true)]
    case Posting(_, _, _) => d == [Read(true), Post]
    case Removing(_, _) => d == [Read(true), Post, Reply(Accepted)]
    case Filing(_, _) => d == [Read(true), SetAside] || d == [Read(true), Post, Reply(Refused)]
    case Releasing(_, _) =>
      (|d| == 1 && d[0].Read?) || d == [Read(true), PutBack] || d == [Read(true), Post, Reply(Unavailable)]
    case _ => true
  }

  predicate HolderOk(s: State, id: ProcId, l: Log)
    requires id in s.procs
  {
    Holding(s.procs[id]) ==> Doing(s.procs[id], Of(l, s.procs[id].k))
  }

  ghost predicate ClaimOk(s: State, k: nat, l: Log) {
    if k < |s.tickets| then Orderly(Of(l, k)) && (s.tickets[k].taken.None? ==> Earned(s.tickets[k].fate, Of(l, k)))
    else Of(l, k) == []
  }

  /** Some holder of a claim of that event was answered so. */
  ghost predicate Answered(s: State, n: Name, l: Log) {
    exists k :: 0 <= k < |s.tickets| && s.tickets[k].name == n && Reply(Accepted) in Of(l, k)
  }

  ghost predicate LogOk(s: State, l: Log) {
    (forall id :: id in s.procs ==> HolderOk(s, id, l)) &&
    (forall k: nat :: ClaimOk(s, k, l)) &&
    (forall n, b :: (n, b) in s.acked ==> Answered(s, n, l))
  }

  /** Every step a holder can take is one that may follow. */
  lemma DoingNext(f: Phase, d: seq<Step>, s: State, id: ProcId, step: Step)
    requires Doing(f, d) && Holding(f) && StepEnabled(s, id, f, step) && !step.Die?
    ensures Orderly(d + [step])
  {
    match f
    case Claimed(_, _) =>
    case Loaded(_, _, _) =>
    case Posting(_, _, _) =>
    case Removing(_, _) =>
    case Filing(_, _) =>
    case Releasing(_, _) =>
  }

  // ---------------------------------------------------------------- preservation

  ghost predicate SameNames(s: State, s': State) {
    |s'.tickets| == |s.tickets| && forall k :: 0 <= k < |s.tickets| ==> s'.tickets[k].name == s.tickets[k].name
  }

  lemma AnsweredStays(s: State, s': State, n: Name, l: Log, l': Log)
    requires |s.tickets| <= |s'.tickets| && Answered(s, n, l)
    requires forall k :: 0 <= k < |s.tickets| ==> s'.tickets[k].name == s.tickets[k].name && Of(l, k) <= Of(l', k)
    ensures Answered(s', n, l')
  {
    var k :| 0 <= k < |s.tickets| && s.tickets[k].name == n && Reply(Accepted) in Of(l, k);
    assert Reply(Accepted) in Of(l', k);
  }

  /** A step of nobody who holds a claim. */
  lemma StillOk(s: State, s': State, l: Log)
    requires LogOk(s, l) && SameNames(s, s') && s'.acked == s.acked
    requires forall id :: id in s'.procs && Holding(s'.procs[id]) ==> id in s.procs && s.procs[id] == s'.procs[id]
    requires forall k :: 0 <= k < |s.tickets| ==>
               (s'.tickets[k].taken, s'.tickets[k].fate) == (s.tickets[k].taken, s.tickets[k].fate) ||
               s'.tickets[k].fate.Reclaimed?
    ensures LogOk(s', l)
  {
    forall id | id in s'.procs ensures HolderOk(s', id, l) {
      if Holding(s'.procs[id]) { assert HolderOk(s, id, l); }
    }
    forall k: nat ensures ClaimOk(s', k, l) { assert ClaimOk(s, k, l); }
    forall n, b | (n, b) in s'.acked ensures Answered(s', n, l) { AnsweredStays(s, s', n, l, l); }
  }

  /** A new claim. */
  lemma TakeLog(s: State, s': State, id: ProcId, f': Phase, l: Log)
    requires LogOk(s, l) && |s'.tickets| == |s.tickets| + 1 && s'.tickets[..|s.tickets|] == s.tickets
    requires s'.procs == s.procs[id := f'] && f'.Claimed? && f'.k == |s.tickets| && s'.acked == s.acked
    requires s'.tickets[|s.tickets|].fate.Open?
    ensures LogOk(s', l)
  {
    forall q | q in s'.procs ensures HolderOk(s', q, l) {
      if q != id { assert HolderOk(s, q, l); } else { assert ClaimOk(s, |s.tickets|, l); }
    }
    forall k: nat ensures ClaimOk(s', k, l) {
      assert ClaimOk(s, k, l);
      if k < |s.tickets| { assert s'.tickets[..|s.tickets|][k] == s.tickets[k]; }
    }
    forall n, b | (n, b) in s'.acked ensures Answered(s', n, l) { AnsweredStays(s, s', n, l, l); }
  }

  /** A step of a holder. */
  ghost predicate HolderStep(s: State, id: ProcId, f: Phase, step: Step, l: Log) {
    Inv(s) && LogOk(s, l) && id in s.procs && s.procs[id] == f && Holding(f) && StepEnabled(s, id, f, step) &&
    !step.Die? && f.k < |s.tickets|
  }

  lemma OwnClaim(s: State, id: ProcId, f: Phase, q: ProcId)
    requires Inv(s) && id in s.procs && s.procs[id] == f && Holding(f)
    requires q in s.procs && q != id && Holding(s.procs[q])
    ensures s.procs[q].k != f.k
  {
    assert ProcOk(s, id, f) && ProcOk(s, q, s.procs[q]);
  }

  /** What the step leaves of the claims: its own, if it ends now, ends by right. */
  ghost predicate ClaimsAfter(s: State, s': State, k: nat, d: seq<Step>) {
    SameNames(s, s') &&
    (k < |s.tickets| && s'.tickets[k].taken.None? ==> Earned(s'.tickets[k].fate, d)) &&
    forall j :: 0 <= j < |s.tickets| && j != k ==> s'.tickets[j] == s.tickets[j] || s'.tickets[j].taken.Some?
  }

  lemma HolderGoes(s: State, id: ProcId, f: Phase, step: Step, l: Log, f': Phase, s': State, l': Log)
    requires HolderStep(s, id, f, step, l) && l' == l[f.k := Of(l, f.k) + [step]]
    requires s'.procs == s.procs[id := f'] && ClaimsAfter(s, s', f.k, Of(l', f.k))
    requires Holding(f') ==> f'.k == f.k && Doing(f', Of(l', f.k))
    requires forall x :: x in s'.acked ==> x in s.acked || (step == Reply(Accepted) && x.0 == s.tickets[f.k].name)
    ensures LogOk(s', l')
  {
    forall q | q in s'.procs ensures HolderOk(s', q, l') {
      if q != id {
        assert HolderOk(s, q, l);
        if Holding(s.procs[q]) { OwnClaim(s, id, f, q); }
      }
    }
    assert HolderOk(s, id, l);
    DoingNext(f, Of(l, f.k), s, id, step);
    forall k: nat ensures ClaimOk(s', k, l') { assert ClaimOk(s, k, l); }
    forall n, b | (n, b) in s'.acked ensures Answered(s', n, l') {
      if (n, b) in s.acked {
        AnsweredStays(s, s', n, l, l');
      } else {
        assert Of(l', f.k)[|Of(l, f.k)|] == Reply(Accepted);
      }
    }
  }

  /** Where a step leads its holder, before the file is dealt with. */
  lemma OnwardPhase(s: State, id: ProcId, f: Phase, step: Step, d: seq<Step>)
    requires id in s.pids && Holding(f) && f.k < |s.tickets| && StepEnabled(s, id, f, step) && Doing(f, d)
    requires step.Read? || step.SetAside? || step.PutBack? || step.Post? || step.Reply?
    ensures id in DoStep(s, id, f, step).procs
    ensures var f' := DoStep(s, id, f, step).procs[id];
      Holding(f') && f'.k == f.k && Doing(f', d + [step]) && DoStep(s, id, f, step).procs == s.procs[id := f']
  {
    if step.Reply? {
      ReplyPhase(s, id, f, step.ans, d);
    } else {
      match step
      case Read(_) =>
      case SetAside =>
      case PutBack =>
      case Post =>
    }
  }

  lemma ReplyPhase(s: State, id: ProcId, f: Phase, ans: Answer, d: seq<Step>)
    requires id in s.pids && f.Posting? && f.k < |s.tickets| && d == [Read(true), Post]
    ensures var s' := DoStep(s, id, f, Reply(ans));
      id in s'.procs && Holding(s'.procs[id]) && s'.procs[id].k == f.k && Doing(s'.procs[id], d + [Reply(ans)]) &&
      s'.procs == s.procs[id := s'.procs[id]]
  {
    match ans
    case Accepted =>
    case Refused =>
    case Unavailable =>
  }

  lemma OnwardClaims(s: State, id: ProcId, f: Phase, step: Step)
    requires id in s.pids && Holding(f) && f.k < |s.tickets| && StepEnabled(s, id, f, step)
    requires step.Read? || step.SetAside? || step.PutBack? || step.Post? || step.Reply?
    ensures SameNames(s, DoStep(s, id, f, step))
    ensures forall j :: 0 <= j < |s.tickets| ==> j == f.k || DoStep(s, id, f, step).tickets[j] == s.tickets[j]
    ensures DoStep(s, id, f, step).tickets[f.k].(posts := 0) == s.tickets[f.k].(posts := 0)
    ensures forall x :: x in DoStep(s, id, f, step).acked ==>
              x in s.acked || (step == Reply(Accepted) && x.0 == s.tickets[f.k].name)
  {
  }

  /** A claim that its holder is still at has not been ended by it. */
  lemma StillHeld(s: State, id: ProcId, f: Phase)
    requires Inv(s) && id in s.procs && s.procs[id] == f && Holding(f) && f.k < |s.tickets|
    ensures s.tickets[f.k].fate.Open? || s.tickets[f.k].fate.Reclaimed? || s.tickets[f.k].taken.Some?
    ensures s.tickets[f.k].owner == id && id in s.pids
  {
    assert ProcOk(s, id, f);
  }

  lemma OnwardOk(s: State, id: ProcId, f: Phase, step: Step, l: Log)
    requires HolderStep(s, id, f, step, l) && id in s.pids
    requires step.Read? || step.SetAside? || step.PutBack? || step.Post? || step.Reply?
    ensures LogOk(DoStep(s, id, f, step), l[f.k := Of(l, f.k) + [step]])
  {
    assert HolderOk(s, id, l);
    StillHeld(s, id, f);
    OnwardPhase(s, id, f, step, Of(l, f.k));
    OnwardClaims(s, id, f, step);
    var s', l' := DoStep(s, id, f, step), l[f.k := Of(l, f.k) + [step]];
    HolderGoes(s, id, f, step, l, s'.procs[id], s', l');
  }

  /** The last step. */
  lemma LastPhase(s: State, id: ProcId, f: Phase, step: Step, d: seq<Step>)
    requires id in s.pids && Holding(f) && f.k < |s.tickets| && StepEnabled(s, id, f, step) && Doing(f, d)
    requires step.Remove? || step.File? || step.Release?
    ensures DoStep(s, id, f, step).procs == s.procs[id := Pass(f.todo)] && DoStep(s, id, f, step).acked == s.acked
    ensures step.ok ==>
              Earned(if step.Remove? then Removed else if step.File? then Filed else Released, d + [step])
  {
    match step
    case Remove(_) =>
    case File(_) =>
    case Release(_) =>
  }

  lemma LastClaims(s: State, id: ProcId, f: Phase, step: Step)
    requires Inv(s) && id in s.procs && s.procs[id] == f && Holding(f) && StepEnabled(s, id, f, step)
    requires f.k < |s.tickets| && id in s.pids && (step.Remove? || step.File? || step.Release?)
    ensures var s' := DoStep(s, id, f, step);
      && SameNames(s, s')
      && (forall j :: 0 <= j < |s.tickets| && j != f.k ==> s'.tickets[j] == s.tickets[j] || s'.tickets[j].taken.Some?)
      && (s'.tickets[f.k] == s.tickets[f.k] || s'.tickets[f.k].taken.Some? ||
          (step.ok && s'.tickets[f.k].fate == if step.Remove? then Removed else if step.File? then Filed else Released))
  {
    assert ProcOk(s, id, f);
    if step.ok && s.tickets[f.k].PathOf() in s.dir { var k := OwnPath(s, id, f); }
  }

  lemma LastOk(s: State, id: ProcId, f: Phase, step: Step, l: Log)
    requires HolderStep(s, id, f, step, l) && id in s.pids && (step.Remove? || step.File? || step.Release?)
    ensures LogOk(DoStep(s, id, f, step), l[f.k := Of(l, f.k) + [step]])
  {
    assert HolderOk(s, id, l);
    StillHeld(s, id, f);
    LastPhase(s, id, f, step, Of(l, f.k));
    LastClaims(s, id, f, step);
    HolderGoes(s, id, f, step, l, Pass(f.todo), DoStep(s, id, f, step), l[f.k := Of(l, f.k) + [step]]);
  }

  lemma ReclaimLog(s: State, id: ProcId, f: Phase, p: Path, ok: bool, l: Log)
    requires Inv(s) && LogOk(s, l) && id in s.procs && s.procs[id] == f && id in s.pids
    requires StepEnabled(s, id, f, ReclaimOne(p, ok))
    ensures LogOk(DoStep(s, id, f, ReclaimOne(p, ok)), l)
  {
    StillOk(s, DoStep(s, id, f, ReclaimOne(p, ok)), l);
  }

  /** Steps of a process that holds no claim, or that dies. */
  lemma IdleOk(s: State, id: ProcId, f: Phase, step: Step, l: Log)
    requires Inv(s) && LogOk(s, l) && id in s.procs && s.procs[id] == f && id in s.pids
    requires StepEnabled(s, id, f, step) && (!Holding(f) || step.Die?) && (Holding(f) ==> f.k < |s.tickets|)
    ensures LogOk(DoStep(s, id, f, step), l)
  {
    if step.ReclaimOne? {
      ReclaimLog(s, id, f, step.p, step.ok, l);
    } else if step.TakeClaim? && Pending(f.name) in s.dir {
      var s' := DoStep(s, id, f, step);
      TakeLog(s, s', id, s'.procs[id], l);
    } else {
      IdleClaims(s, id, f, step);
      StillOk(s, DoStep(s, id, f, step), l);
    }
  }

  lemma IdleClaims(s: State, id: ProcId, f: Phase, step: Step)
    requires id in s.procs && s.procs[id] == f && id in s.pids && (Holding(f) ==> f.k < |s.tickets|)
    requires StepEnabled(s, id, f, step) && (!Holding(f) || step.Die?) && !step.ReclaimOne?
    requires step.TakeClaim? ==> Pending(f.name) !in s.dir
    ensures var s' := DoStep(s, id, f, step);
      s'.tickets == s.tickets && s'.acked == s.acked && s'.procs == s.procs[id := s'.procs[id]] &&
      !Holding(s'.procs[id])
  {
  }

  lemma OutsideOk(s: State, a: Action, l: Log)
    requires Inv(s) && LogOk(s, l) && Enabled(s, a) && !a.Run?
    ensures LogOk(Do(s, a), l)
  {
    if a.Sweep? { assert PathOk(s, Rejected(a.name)); }
    StillOk(s, Do(s, a), l);
  }

  lemma StepLog(s: State, a: Action, l: Log)
    requires Inv(s) && LogOk(s, l) && Enabled(s, a)
    ensures LogOk(Do(s, a), Logged(s, a, l))
  {
    if !a.Run? {
      OutsideOk(s, a, l);
    } else if !Holding(s.procs[a.id]) || a.step.Die? {
      IdleOk(s, a.id, s.procs[a.id], a.step, l);
    } else if a.step.Remove? || a.step.File? || a.step.Release? {
      LastOk(s, a.id, s.procs[a.id], a.step, l);
    } else {
      OnwardOk(s, a.id, s.procs[a.id], a.step, l);
    }
  }

  // ---------------------------------------------------------------- whole runs

  lemma {:induction false} RunLog(ss: seq<State>, t: seq<Action>, k: nat)
    requires IsRun(ss, t) && k <= |t|
    ensures LogOk(ss[k], History(ss, t, k))
  {
    if k > 0 {
      RunLog(ss, t, k - 1);
      RunInv(ss, t, k - 1);
      assert StepAt(ss, t, k - 1);
      StepLog(ss[k - 1], t[k - 1], History(ss, t, k - 1));
    }
  }

  /** Whoever holds a claim reads the record first, and then takes only such steps as may follow: after a 2xx it only
      removes the file, after a refusal it only sets it aside, after any other answer it only gives it back, and
      after that it does nothing more with this claim. */
  lemma HolderIsOrderly(ss: seq<State>, t: seq<Action>, k: nat, i: nat)
    requires IsRun(ss, t) && k <= |t|
    ensures Orderly(Of(History(ss, t, k), i))
  {
    RunLog(ss, t, k);
    assert ClaimOk(ss[k], i, History(ss, t, k));
  }

  /** What a holder makes of its own claim follows from the answer: removed exactly on a 2xx, set aside on a refusal
      or unposted, and given back on any other answer or unposted. */
  lemma FateFollowsAnswer(ss: seq<State>, t: seq<Action>, k: nat, i: nat)
    requires IsRun(ss, t) && k <= |t| && i < |ss[k].tickets| && ss[k].tickets[i].taken.None?
    ensures Earned(ss[k].tickets[i].fate, Of(History(ss, t, k), i))
  {
    RunLog(ss, t, k);
    assert ClaimOk(ss[k], i, History(ss, t, k));
  }

  /** An event counts as acknowledged only if a holder of a claim of it was answered with a 2xx. */
  lemma AcknowledgedWasAccepted(ss: seq<State>, t: seq<Action>, k: nat, n: Name, b: Body) returns (i: nat)
    requires IsRun(ss, t) && k <= |t| && (n, b) in ss[k].acked
    ensures i < |ss[k].tickets| && ss[k].tickets[i].name == n && Reply(Accepted) in Of(History(ss, t, k), i)
  {
    RunLog(ss, t, k);
    assert Answered(ss[k], n, History(ss, t, k));
    i :| 0 <= i < |ss[k].tickets| && ss[k].tickets[i].name == n && Reply(Accepted) in Of(History(ss, t, k), i);
  }

  // ---------------------------------------------------------------- where an event is after its last claim

  ghost predicate LastClaim(s: State, k: nat) {
    k < |s.tickets| && forall j :: k < j < |s.tickets| ==> s.tickets[j].name != s.tickets[k].name
  }

  ghost predicate BackAt(s: State, k: nat) {
    LastClaim(s, k) && Returned(s.tickets[k].fate) ==>
      s.tickets[k].name in s.place && s.place[s.tickets[k].name].InPending?
  }

  ghost predicate AllBack(s: State) { forall k: nat :: BackAt(s, k) }

  /** Claims and places stay as they are. */
  lemma BackStays(s: State, s': State)
    requires AllBack(s) && s'.place == s.place && SameNames(s, s')
    requires forall k :: 0 <= k < |s.tickets| ==> s'.tickets[k].fate == s.tickets[k].fate
    ensures AllBack(s')
  {
    forall k: nat ensures BackAt(s', k) { assert BackAt(s, k); }
  }

  /** Claim `k`, the last of its event, ends, and the file is moved accordingly. */
  lemma BackAfterEnd(s: State, s': State, k: nat, fate: Fate, to: Place)
    requires Inv(s) && AllBack(s) && k < |s.tickets| && s.tickets[k].fate.Open? && SameNames(s, s')
    requires s'.place == s.place[s.tickets[k].name := to] && (Returned(fate) ==> to == InPending)
    requires s'.tickets[k].fate == fate
    requires forall j :: 0 <= j < |s.tickets| && j != k ==> s'.tickets[j] == s.tickets[j]
    ensures AllBack(s')
  {
    forall j: nat ensures BackAt(s', j) {
      assert BackAt(s, j);
      if j < |s.tickets| && s.tickets[j].name == s.tickets[k].name { OpenIsLast(s, k, j); }
    }
  }

  /** A new claim of event `n` takes it from where it waited. */
  lemma BackAfterTake(s: State, s': State, t: Ticket, to: Place)
    requires AllBack(s) && s'.tickets == s.tickets + [t] && s'.place == s.place[t.name := to] && t.fate.Open?
    ensures AllBack(s')
  {
    forall k: nat ensures BackAt(s', k) {
      assert BackAt(s, k);
      if k < |s.tickets| && LastClaim(s', k) {
        assert s'.tickets[|s.tickets|] == t;
        forall j | k < j < |s.tickets| ensures s.tickets[j].name != s.tickets[k].name {
          assert s'.tickets[j] == s.tickets[j];
        }
      }
    }
  }

  lemma BackTake(s: State, id: ProcId, todo: set<Name>, n: Name, at: nat)
    requires Inv(s) && AllBack(s) && id in s.pids
    ensures AllBack(DoTake(s, id, todo, n, at))
  {
    var s' := DoTake(s, id, todo, n, at);
    if Pending(n) in s.dir {
      BackAfterTake(s, s', s'.tickets[|s.tickets|], InClaim(|s.tickets|));
    } else {
      BackStays(s, s');
    }
  }

  lemma BackReclaim(s: State, id: ProcId, f: Phase, p: Path, ok: bool)
    requires Inv(s) && AllBack(s) && id in s.procs && s.procs[id] == f && id in s.pids
    requires StepEnabled(s, id, f, ReclaimOne(p, ok))
    ensures AllBack(DoStep(s, id, f, ReclaimOne(p, ok)))
  {
    var s' := DoStep(s, id, f, ReclaimOne(p, ok));
    if ok && p in s.dir {
      OpenAt(s, p);
      BackAfterEnd(s, s', TicketAt(s, p).value, Reclaimed(s.now), InPending);
    } else {
      BackStays(s, s');
    }
  }

  lemma BackLast(s: State, id: ProcId, f: Phase, step: Step)
    requires Inv(s) && AllBack(s) && id in s.procs && s.procs[id] == f && Holding(f) && StepEnabled(s, id, f, step)
    requires f.k < |s.tickets| && id in s.pids && (step.Remove? || step.File? || step.Release?)
    ensures AllBack(DoStep(s, id, f, step))
  {
    assert ProcOk(s, id, f);
    var s', p := DoStep(s, id, f, step), s.tickets[f.k].PathOf();
    if step.ok && p in s.dir {
      var k := OwnPath(s, id, f);
      if step.Remove? {
        DeleteEnds(s, p, k, Some(f.k));
        BackAfterEnd(s, s', k, Removed, Gone);
      } else if step.File? {
        MoveEnds(s, p, Rejected(p.name), k, Filed, InRejected, Some(f.k));
        BackAfterEnd(s, s', k, Filed, InRejected);
      } else {
        MoveEnds(s, p, Pending(p.name), k, Released, InPending, Some(f.k));
        BackAfterEnd(s, s', k, Released, InPending);
      }
    } else {
      BackStays(s, s');
    }
  }

  lemma MoveEnds(s: State, p: Path, dst: Path, k: nat, fate: Fate, to: Place, via: Option<nat>)
    requires p in s.dir && TicketAt(s, p) == Some(k) && k < |s.tickets|
    ensures var s' := Move(s, p, dst, fate, to, via);
      SameNames(s, s') && s'.place == s.place[p.name := to] && s'.tickets[k].fate == fate &&
      forall j :: 0 <= j < |s.tickets| && j != k ==> s'.tickets[j] == s.tickets[j]
  {
  }

  lemma DeleteEnds(s: State, p: Path, k: nat, via: Option<nat>)
    requires p in s.dir && TicketAt(s, p) == Some(k) && k < |s.tickets|
    ensures var s' := Delete(s, p, Removed, via);
      SameNames(s, s') && s'.place == s.place[p.name := Gone] && s'.tickets[k].fate == Removed &&
      forall j :: 0 <= j < |s.tickets| && j != k ==> s'.tickets[j] == s.tickets[j]
  {
  }

  lemma BackOutside(s: State, a: Action)
    requires Inv(s) && AllBack(s) && Enabled(s, a) && !a.Run?
    ensures AllBack(Do(s, a))
  {
    if a.Sweep? { assert PathOk(s, Rejected(a.name)); }
    forall k: nat ensures BackAt(Do(s, a), k) {
      assert BackAt(s, k);
      if k < |s.tickets| { assert TicketOk(s, k); }
    }
  }

  lemma BackStep(s: State, a: Action)
    requires Inv(s) && AllBack(s) && Enabled(s, a)
    ensures AllBack(Do(s, a))
  {
    if !a.Run? {
      BackOutside(s, a);
    } else {
      var f := s.procs[a.id];
      if a.step.Remove? || a.step.File? || a.step.Release? { BackLast(s, a.id, f, a.step); }
      else if a.step.ReclaimOne? { BackReclaim(s, a.id, f, a.step.p, a.step.ok); }
      else if a.step.TakeClaim? { BackTake(s, a.id, f.todo, f.name, f.at); }
      else { BackStays(s, Do(s, a)); }
    }
  }

  lemma {:induction false} RunBack(ss: seq<State>, t: seq<Action>, k: nat)
    requires IsRun(ss, t) && k <= |t|
    ensures AllBack(ss[k])
  {
    if k > 0 {
      RunBack(ss, t, k - 1);
      RunInv(ss, t, k - 1);
      assert StepAt(ss, t, k - 1);
      BackStep(ss[k - 1], t[k - 1]);
    }
  }

  /** Where an event is follows from how its last claim ended: given back or reclaimed it waits again under its own
      name; set aside it is among the rejected until the sweep takes it; removed it is nowhere. */
  lemma PlaceFollowsFate(ss: seq<State>, t: seq<Action>, k: nat, i: nat)
    requires IsRun(ss, t) && k <= |t| && LastClaim(ss[k], i)
    ensures var s, n := ss[k], ss[k].tickets[i].name;
      match s.tickets[i].fate
      case Open => s.tickets[i].PathOf() in s.dir
      case Released => Pending(n) in s.dir
      case Reclaimed(_) => Pending(n) in s.dir
      case Filed => Rejected(n) in s.dir || forall p :: p in s.dir ==> p.name != n
      case Removed => forall p :: p in s.dir ==> p.name != n
  {
    RunInv(ss, t, k);
    RunBack(ss, t, k);
    var s, n := ss[k], ss[k].tickets[i].name;
    assert BackAt(s, i) && TicketOk(s, i) && NameOk(s, n);
    forall p | p in s.dir && p.name == n ensures !s.place[n].Gone? { assert PathOk(s, p); }
  }
}
