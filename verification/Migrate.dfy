/**
  Migration runners under the advisory schema lock (logservice-go/migrate/migrate.go).

  Any number of runners share one database.  A runner owns one session; the lock belongs to
  the session.  A process may die, and a session may be lost, between any two statements, and
  the acknowledgement of a statement the server carried out may never reach the runner.
 */
module Migrate {
  import opened Options

  type RunnerId = nat
  type Name = string

  datatype Outcome = Success | Failed

  datatype Phase =
    | Connected                               // a connection, no lock
    | Waiting                                 // the zero-timeout GET_LOCK answered 0
    | Locked
    | TableReady                              // _migrations exists
    | Loop(applied: set<Name>, i: nat)        // about to look at names[i]
    | Executed(applied: set<Name>, i: nat)    // names[i] executed, not yet recorded
    | Returning(out: Outcome)                 // the deferred release is still to run
    | Done(out: Outcome)
    | Dead

  datatype Runner = Runner(names: seq<Name>, phase: Phase, session: bool)

  /** `base` is what was recorded at the start of the run; `execs` and `abandoned` are history:
      successful executions of a file, and runs that stopped between its Exec and its INSERT. */
  datatype State = State(
    runners: map<RunnerId, Runner>,
    holder: Option<RunnerId>,
    table: bool,
    recorded: set<Name>,
    base: set<Name>,
    execs: map<Name, nat>,
    abandoned: map<Name, nat>)

  /** What comes of a statement: done, refused (or never reached the server), or done with the
      answer lost. */
  datatype Answer = Ok | Refused | Lost

  datatype Action =
    | Start(r: RunnerId, names: seq<Name>)
    | GetLock(r: RunnerId, ans: Answer)
    | CreateTable(r: RunnerId, ans: Answer)
    | ReadApplied(r: RunnerId, ans: Answer)
    | Skip(r: RunnerId)
    | Exec(r: RunnerId, ans: Answer)
    | Insert(r: RunnerId, ans: Answer)
    | Finish(r: RunnerId)
    | Release(r: RunnerId, ans: Answer)
    | Die(r: RunnerId)
    | SessionLost(r: RunnerId)

  function Count(m: map<Name, nat>, n: Name): nat {
    if n in m then m[n] else 0
  }

  function Bump(m: map<Name, nat>, n: Name): map<Name, nat> {
    m[n := Count(m, n) + 1]
  }

  ghost predicate NoDup(names: seq<Name>) {
    forall i, j :: 0 <= i < j < |names| ==> names[i] != names[j]
  }

  /** Between acquiring the lock and running the deferred release. */
  predicate PastLock(p: Phase) {
    p.Locked? || p.TableReady? || p.Loop? || p.Executed? || p.Returning?
  }

  ghost predicate Enabled(s: State, a: Action) {
    if a.Start? then a.r !in s.runners && NoDup(a.names)
    else
      a.r in s.runners &&
      var u := s.runners[a.r];
      match a
      case GetLock(_, ans) =>
        (u.phase.Connected? || u.phase.Waiting?) && Reaches(u, ans) &&
        (u.phase.Waiting? && ans.Ok? ==> s.holder.None?)
      case CreateTable(_, ans) => u.phase.Locked? && Reaches(u, ans)
      case ReadApplied(_, ans) => u.phase.TableReady? && Reaches(u, ans) && (ans.Ok? ==> s.table)
      case Skip(_) => u.phase.Loop? && u.phase.i < |u.names| && u.names[u.phase.i] in u.phase.applied
      case Exec(_, ans) => AtFile(u) && Reaches(u, ans)
      case Insert(_, ans) => InFlight(u) && Reaches(u, ans) && (!ans.Refused? ==> Current(u) !in s.recorded)
      case Finish(_) => u.phase.Loop? && u.phase.i == |u.names|
      case Release(_, ans) => u.phase.Returning? && Reaches(u, ans)
      case Die(_) => !u.phase.Done? && !u.phase.Dead?
      case SessionLost(_) => u.session
      case Start(_, _) => false
  }

  /** A statement has an effect only on a session that is still there. */
  predicate Reaches(u: Runner, ans: Answer) {
    ans.Refused? || u.session
  }

  /** The file an iteration of the loop is about. */
  function Current(u: Runner): Name
    requires (u.phase.Loop? || u.phase.Executed?) && u.phase.i < |u.names|
  {
    u.names[u.phase.i]
  }

  /** The runner's loop is at a file it must execute. */
  predicate AtFile(u: Runner) {
    u.phase.Loop? && u.phase.i < |u.names| && u.names[u.phase.i] !in u.phase.applied
  }

  /** The runner has executed a file and not yet heard about its INSERT. */
  predicate InFlight(u: Runner) {
    u.phase.Executed? && u.phase.i < |u.names|
  }

  function Freed(s: State, r: RunnerId): Option<RunnerId> {
    if s.holder == Some(r) then None else s.holder
  }

  function Go(s: State, r: RunnerId, p: Phase): State
    requires r in s.runners
  {
    s.(runners := s.runners[r := s.runners[r].(phase := p)])
  }

  function Do(s: State, a: Action): State
    requires Enabled(s, a)
  {
    if a.Start? then s.(runners := s.runners[a.r := Runner(a.names, Connected, true)])
    else
      var r := a.r;
      var u := s.runners[r];
      match a
      case GetLock(_, ans) =>
        if ans.Refused? then Go(s, r, Done(Failed))
        else if s.holder.Some? then Go(s, r, if ans.Ok? then Waiting else Done(Failed))
        else Go(s, r, if ans.Ok? then Locked else Done(Failed)).(holder := Some(r))
      case CreateTable(_, ans) =>
        Go(s, r, if ans.Ok? then TableReady else Returning(Failed)).(table := s.table || !ans.Refused?)
      case ReadApplied(_, ans) => Go(s, r, if ans.Ok? then Loop(s.recorded, 0) else Returning(Failed))
      case Skip(_) => Go(s, r, Loop(u.phase.applied, u.phase.i + 1))
      case Exec(_, ans) =>
        Go(s, r, if ans.Ok? then Executed(u.phase.applied, u.phase.i) else Returning(Failed)).(
          execs := if ans.Refused? then s.execs else Bump(s.execs, Current(u)),
          abandoned := if ans.Lost? then Bump(s.abandoned, Current(u)) else s.abandoned)
      case Insert(_, ans) =>
        Go(s, r, if ans.Ok? then Loop(u.phase.applied, u.phase.i + 1) else Returning(Failed)).(
          recorded := if ans.Refused? then s.recorded else s.recorded + {Current(u)},
          abandoned := if ans.Refused? then Bump(s.abandoned, Current(u)) else s.abandoned)
      case Finish(_) => Go(s, r, Returning(Success))
      case Release(_, ans) =>
        Go(s, r, Done(u.phase.out)).(holder := if ans.Refused? then s.holder else Freed(s, r))
      case Die(_) =>
        Go(s, r, Dead).(abandoned := if InFlight(u) then Bump(s.abandoned, Current(u)) else s.abandoned)
      case SessionLost(_) =>
        s.(runners := s.runners[r := u.(session := false)], holder := Freed(s, r))
  }

  ghost predicate Init(s: State) {
    s.runners == map[] && s.holder.None? && s.recorded == s.base &&
    s.execs == map[] && s.abandoned == map[] && (!s.table ==> s.recorded == {})
  }

  /** `ss` are the states and `t` the actions of a run that starts in an initial state. */
  ghost predicate IsRun(ss: seq<State>, t: seq<Action>) {
    |ss| == |t| + 1 && Init(ss[0]) && forall k :: 0 <= k < |t| ==> StepAt(ss, t, k)
  }

  ghost predicate StepAt(ss: seq<State>, t: seq<Action>, k: nat)
    requires k < |t| < |ss|
  {
    Enabled(ss[k], t[k]) && ss[k + 1] == Do(ss[k], t[k])
  }

  // ---------------------------------------------------------------- invariant

  function Prefix(names: seq<Name>, i: nat): set<Name>
    requires i <= |names|
  {
    set j | 0 <= j < i :: names[j]
  }

  /** What a runner's local knowledge says about the database.  The subset facts survive the
      loss of the session; the exact equality is what the lock buys. */
  ghost predicate PhaseOk(u: Runner, table: bool, recorded: set<Name>) {
    match u.phase
    case TableReady => u.session ==> table
    case Loop(a, i) =>
      i <= |u.names| && a <= recorded && Prefix(u.names, i) <= recorded &&
      (u.session ==> table && recorded == a + Prefix(u.names, i))
    case Executed(a, i) =>
      i < |u.names| && u.names[i] !in a && a <= recorded && Prefix(u.names, i) <= recorded &&
      (u.session ==> table && recorded == a + Prefix(u.names, i))
    case Returning(Success) => Prefix(u.names, |u.names|) <= recorded
    case Done(Success) => Prefix(u.names, |u.names|) <= recorded
    case _ => true
  }

  ghost predicate RunnerOk(s: State, r: RunnerId)
    requires r in s.runners
  {
    NoDup(s.runners[r].names) &&
    (s.runners[r].session && PastLock(s.runners[r].phase) ==> s.holder == Some(r)) &&
    PhaseOk(s.runners[r], s.table, s.recorded)
  }

  /** Whether `r` has executed `n` and not yet heard about its INSERT. */
  predicate Flying(s: State, r: RunnerId, n: Name) {
    r in s.runners && InFlight(s.runners[r]) && Current(s.runners[r]) == n
  }

  function FlyingAt(s: State, n: Name): set<RunnerId> {
    set r | r in s.runners && Flying(s, r, n)
  }

  function RecordedHere(s: State, n: Name): nat {
    if n in s.recorded && n !in s.base then 1 else 0
  }

  /** The ledger of one file. */
  ghost predicate Balanced(s: State, n: Name) {
    Count(s.execs, n) == Count(s.abandoned, n) + RecordedHere(s, n) + |FlyingAt(s, n)|
  }

  ghost predicate Inv(s: State) {
    (forall r :: r in s.runners ==> RunnerOk(s, r)) &&
    (s.holder.Some? ==> s.holder.value in s.runners && s.runners[s.holder.value].session) &&
    s.base <= s.recorded &&
    (!s.table ==> s.recorded == {}) &&
    (forall n :: Balanced(s, n))
  }

  /** Runners other than `r` keep their part of the invariant: they only depend on the holder
      while it is theirs, and on the recorded set exactly only while they hold the lock. */
  lemma OthersOk(s: State, s': State, r: RunnerId)
    requires forall q :: q in s.runners ==> RunnerOk(s, q)
    requires forall q :: q in s'.runners && q != r ==> q in s.runners && s'.runners[q] == s.runners[q]
    requires s'.holder == s.holder || s.holder.None? || s.holder == Some(r)
    requires s.recorded <= s'.recorded && (s.table ==> s'.table)
    requires s.recorded == s'.recorded || s.holder == Some(r)
    ensures forall q :: q in s'.runners && q != r ==> RunnerOk(s', q)
  {
    forall q | q in s'.runners && q != r
      ensures RunnerOk(s', q)
    {
      assert RunnerOk(s, q);
    }
  }

  lemma SizeWithout(f: set<RunnerId>, r: RunnerId)
    ensures |f| == |f - {r}| + (if r in f then 1 else 0)
  {
    if r in f {
      assert f == (f - {r}) + {r};
    } else {
      assert f == f - {r};
    }
  }

  lemma OthersStillFlying(s: State, s': State, r: RunnerId, n: Name)
    requires forall q :: q != r ==> (q in s'.runners <==> q in s.runners)
    requires forall q :: q != r && q in s.runners ==> s'.runners[q] == s.runners[q]
    ensures FlyingAt(s, n) - {r} == FlyingAt(s', n) - {r}
  {
  }

  function One(b: bool): nat {
    if b then 1 else 0
  }

  /** What a step by `a.r` adds to each column of the ledger. */
  lemma LedgerDelta(s: State, a: Action, n: Name)
    requires Enabled(s, a) && s.base <= s.recorded
    ensures Count(Do(s, a).execs, n) - Count(s.execs, n) ==
            Count(Do(s, a).abandoned, n) - Count(s.abandoned, n)
            + RecordedHere(Do(s, a), n) - RecordedHere(s, n)
            + One(Flying(Do(s, a), a.r, n)) - One(Flying(s, a.r, n))
  {
  }

  lemma LedgerKept(s: State, a: Action, s': State, n: Name)
    requires Balanced(s, n) && s.base <= s.recorded && Enabled(s, a)
    requires s' == Do(s, a) && Frame(s, a.r, s')
    ensures Balanced(s', n)
  {
    LedgerDelta(s, a, n);
    OthersStillFlying(s, s', a.r, n);
    SizeWithout(FlyingAt(s, n), a.r);
    SizeWithout(FlyingAt(s', n), a.r);
  }

  lemma PrefixGrows(names: seq<Name>, i: nat)
    requires i < |names|
    ensures Prefix(names, i + 1) == Prefix(names, i) + {names[i]}
  {
  }

  lemma FreshInLoop(u: Runner)
    requires NoDup(u.names)
    requires (u.phase.Loop? || u.phase.Executed?) && u.phase.i < |u.names| && u.names[u.phase.i] !in u.phase.applied
    ensures u.names[u.phase.i] !in u.phase.applied + Prefix(u.names, u.phase.i)
  {
  }

  /** The acting runner's own part of the invariant, before the loop over the files. */
  lemma OpeningOk(s: State, a: Action)
    requires Inv(s) && Enabled(s, a) && (a.Start? || a.GetLock? || a.CreateTable? || a.ReadApplied?)
    ensures a.r in Do(s, a).runners && RunnerOk(Do(s, a), a.r)
  {
    if !a.Start? { assert RunnerOk(s, a.r); }
    match a
    case Start(_, _) =>
    case GetLock(_, _) =>
    case CreateTable(_, _) =>
    case ReadApplied(_, _) =>
  }

  lemma LoopOk(s: State, a: Action)
    requires Inv(s) && Enabled(s, a) && (a.Skip? || a.Exec? || a.Insert? || a.Finish?)
    ensures a.r in Do(s, a).runners && RunnerOk(Do(s, a), a.r)
  {
    assert RunnerOk(s, a.r);
    var u := s.runners[a.r];
    if (a.Skip? || a.Insert?) && u.phase.i < |u.names| { PrefixGrows(u.names, u.phase.i); }
    match a
    case Skip(_) =>
    case Exec(_, _) =>
    case Insert(_, _) =>
    case Finish(_) =>
  }

  lemma ClosingOk(s: State, a: Action)
    requires Inv(s) && Enabled(s, a) && (a.Release? || a.Die? || a.SessionLost?)
    ensures a.r in Do(s, a).runners && RunnerOk(Do(s, a), a.r)
  {
    assert RunnerOk(s, a.r);
    match a
    case Release(_, _) =>
    case Die(_) =>
    case SessionLost(_) =>
  }

  lemma ActorOk(s: State, a: Action)
    requires Inv(s) && Enabled(s, a)
    ensures a.r in Do(s, a).runners && RunnerOk(Do(s, a), a.r)
  {
    if a.Start? || a.GetLock? || a.CreateTable? || a.ReadApplied? { OpeningOk(s, a); }
    else if a.Skip? || a.Exec? || a.Insert? || a.Finish? { LoopOk(s, a); }
    else { ClosingOk(s, a); }
  }

  /** What a step by `r` may do to everything that is not `r`'s own. */
  ghost predicate Frame(s: State, r: RunnerId, s': State) {
    r in s'.runners &&
    (forall q :: q != r ==> (q in s'.runners <==> q in s.runners)) &&
    (forall q :: q != r && q in s.runners ==> s'.runners[q] == s.runners[q]) &&
    (s'.holder == s.holder || s.holder.None? || s.holder == Some(r)) &&
    s.recorded <= s'.recorded && (s.table ==> s'.table) &&
    (s.recorded == s'.recorded || s.holder == Some(r)) &&
    (s'.holder.Some? ==> s'.holder.value in s'.runners && s'.runners[s'.holder.value].session) &&
    s'.base == s.base && (!s'.table ==> s'.recorded == {})
  }

  lemma StepFrame(s: State, a: Action)
    requires Inv(s) && Enabled(s, a)
    ensures Frame(s, a.r, Do(s, a))
  {
    if !a.Start? { assert RunnerOk(s, a.r); }
    match a
    case Start(_, _) =>
    case GetLock(_, _) =>
    case CreateTable(_, _) =>
    case ReadApplied(_, _) =>
    case Skip(_) =>
    case Exec(_, _) =>
    case Insert(_, _) =>
    case Finish(_) =>
    case Release(_, _) =>
    case Die(_) =>
    case SessionLost(_) =>
  }

  lemma InvFromParts(s: State, r: RunnerId, s': State)
    requires Inv(s) && Frame(s, r, s') && RunnerOk(s', r)
    requires forall n :: Balanced(s', n)
    ensures Inv(s')
  {
    OthersOk(s, s', r);
  }

  lemma StepKeepsInv(s: State, a: Action)
    requires Inv(s) && Enabled(s, a)
    ensures Inv(Do(s, a))
  {
    StepFrame(s, a);
    ActorOk(s, a);
    forall n ensures Balanced(Do(s, a), n) {
      assert Balanced(s, n);
      LedgerKept(s, a, Do(s, a), n);
    }
    InvFromParts(s, a.r, Do(s, a));
  }

  // ---------------------------------------------------------------- whole runs

  lemma InitInv(s: State)
    requires Init(s)
    ensures Inv(s)
  {
    forall n ensures Balanced(s, n) { assert FlyingAt(s, n) == {}; }
  }

  lemma {:induction false} RunInv(ss: seq<State>, t: seq<Action>, k: nat)
    requires IsRun(ss, t) && k <= |t|
    ensures Inv(ss[k])
  {
    if k == 0 {
      InitInv(ss[0]);
    } else {
      RunInv(ss, t, k - 1);
      assert StepAt(ss, t, k - 1);
      StepKeepsInv(ss[k - 1], t[k - 1]);
    }
  }

  lemma {:induction false} RecordedGrows(ss: seq<State>, t: seq<Action>, i: nat, j: nat)
    requires IsRun(ss, t) && i <= j <= |t|
    ensures ss[i].recorded <= ss[j].recorded
  {
    if i < j {
      RecordedGrows(ss, t, i, j - 1);
      assert StepAt(ss, t, j - 1);
    }
  }

  /** Whether action `a` makes the server carry out the file `n`. */
  predicate Executes(s: State, a: Action, n: Name) {
    a.Exec? && !a.ans.Refused? && a.r in s.runners && AtFile(s.runners[a.r]) && Current(s.runners[a.r]) == n
  }

  /** Two runners whose sessions are alive are never both between taking the lock and releasing it. */
  lemma AtMostOneHolder(ss: seq<State>, t: seq<Action>, k: nat, q: RunnerId, r: RunnerId)
    requires IsRun(ss, t) && k <= |t|
    requires q in ss[k].runners && ss[k].runners[q].session && PastLock(ss[k].runners[q].phase)
    requires r in ss[k].runners && ss[k].runners[r].session && PastLock(ss[k].runners[r].phase)
    ensures q == r
  {
    RunInv(ss, t, k);
    assert RunnerOk(ss[k], q) && RunnerOk(ss[k], r);
  }

  /** Once a file is recorded no later action, by any runner, executes it. */
  lemma NeverExecutedOnceRecorded(ss: seq<State>, t: seq<Action>, i: nat, j: nat, n: Name)
    requires IsRun(ss, t) && i <= j < |t|
    requires n in ss[i].recorded
    ensures !Executes(ss[j], t[j], n)
  {
    RunInv(ss, t, j);
    RecordedGrows(ss, t, i, j);
    assert StepAt(ss, t, j);
    if Executes(ss[j], t[j], n) {
      assert RunnerOk(ss[j], t[j].r);
      FreshInLoop(ss[j].runners[t[j].r]);
      assert false;
    }
  }

  /** A file is executed only when everything before it in the runner's list is recorded. */
  lemma ExecutedInOrder(ss: seq<State>, t: seq<Action>, j: nat, i: nat, k: nat)
    requires IsRun(ss, t) && j < |t| && t[j].r in ss[j].runners
    requires i < |ss[j].runners[t[j].r].names|
    requires Executes(ss[j], t[j], ss[j].runners[t[j].r].names[i])
    requires k < i
    ensures ss[j].runners[t[j].r].names[k] in ss[j].recorded
  {
    RunInv(ss, t, j);
    var u := ss[j].runners[t[j].r];
    assert RunnerOk(ss[j], t[j].r);
    assert u.phase.i == i;
    assert u.names[k] in Prefix(u.names, u.phase.i);
  }

  /** The ledger: executions = recordings + runs that stopped in between + runs still in between.
      So with nobody in between, a file has run at most once more than it was abandoned. */
  lemma ExecutionLedger(ss: seq<State>, t: seq<Action>, k: nat, n: Name)
    requires IsRun(ss, t) && k <= |t|
    ensures Count(ss[k].execs, n) ==
            Count(ss[k].abandoned, n) + |FlyingAt(ss[k], n)|
            + (if n in ss[k].recorded && n !in ss[0].recorded then 1 else 0)
    ensures FlyingAt(ss[k], n) == {} ==> Count(ss[k].execs, n) <= 1 + Count(ss[k].abandoned, n)
  {
    RunInv(ss, t, k);
    BaseFixed(ss, t, k);
    assert Balanced(ss[k], n);
  }

  lemma {:induction false} BaseFixed(ss: seq<State>, t: seq<Action>, k: nat)
    requires IsRun(ss, t) && k <= |t|
    ensures ss[k].base == ss[0].recorded
  {
    if k > 0 {
      BaseFixed(ss, t, k - 1);
      assert StepAt(ss, t, k - 1);
    }
  }

  /** The UNIQUE key is never what stops a runner: when a live session comes to its INSERT, the
      row is not there. */
  lemma InsertNeverCollides(ss: seq<State>, t: seq<Action>, k: nat, r: RunnerId)
    requires IsRun(ss, t) && k <= |t|
    requires r in ss[k].runners && ss[k].runners[r].session && InFlight(ss[k].runners[r])
    ensures Current(ss[k].runners[r]) !in ss[k].recorded
  {
    RunInv(ss, t, k);
    assert RunnerOk(ss[k], r);
    FreshInLoop(ss[k].runners[r]);
  }

  /** A runner that is done keeps the lock only if its release was refused, or if the answer that would have told it
      that it had the lock was lost. */
  lemma {:induction false} LockAfterDone(ss: seq<State>, t: seq<Action>, k: nat, r: RunnerId) returns (j: nat)
    requires IsRun(ss, t) && k <= |t| && r in ss[k].runners && ss[k].runners[r].phase.Done?
    requires ss[k].holder == Some(r)
    ensures j < k && (t[j] == Release(r, Refused) || t[j] == GetLock(r, Lost))
  {
    assert k > 0;
    RunInv(ss, t, k - 1);
    RunServed(ss, t, k - 1);
    assert StepAt(ss, t, k - 1);
    DoneWithLock(ss[k - 1], t[k - 1], ss[k], r);
    if t[k - 1] == Release(r, Refused) || t[k - 1] == GetLock(r, Lost) { j := k - 1; }
    else { j := LockAfterDone(ss, t, k - 1, r); }
  }

  /** Whoever holds the lock is not still asking for it. */
  ghost predicate HolderServed(s: State) {
    s.holder.Some? && s.holder.value in s.runners ==>
      !s.runners[s.holder.value].phase.Connected? && !s.runners[s.holder.value].phase.Waiting?
  }

  lemma StepServed(s: State, a: Action, s': State)
    requires Inv(s) && HolderServed(s) && Enabled(s, a) && s' == Do(s, a)
    ensures HolderServed(s')
  {
  }

  lemma {:induction false} RunServed(ss: seq<State>, t: seq<Action>, k: nat)
    requires IsRun(ss, t) && k <= |t|
    ensures HolderServed(ss[k])
  {
    if k > 0 {
      RunServed(ss, t, k - 1);
      RunInv(ss, t, k - 1);
      assert StepAt(ss, t, k - 1);
      StepServed(ss[k - 1], t[k - 1], ss[k]);
    }
  }

  lemma DoneWithLock(s: State, a: Action, s': State, r: RunnerId)
    requires Inv(s) && HolderServed(s) && Enabled(s, a) && s' == Do(s, a)
    requires r in s'.runners && s'.runners[r].phase.Done? && s'.holder == Some(r)
    ensures a == Release(r, Refused) || a == GetLock(r, Lost) ||
            (r in s.runners && s.runners[r].phase.Done? && s.holder == Some(r))
  {
  }

  /** A runner that has returned without an error leaves every one of its names recorded, for good. */
  lemma SuccessMeansRecorded(ss: seq<State>, t: seq<Action>, i: nat, j: nat, r: RunnerId, n: Name)
    requires IsRun(ss, t) && i <= j <= |t|
    requires r in ss[i].runners && ss[i].runners[r].phase == Done(Success)
    requires n in ss[i].runners[r].names
    ensures n in ss[j].recorded
  {
    RunInv(ss, t, i);
    assert RunnerOk(ss[i], r);
    var k :| 0 <= k < |ss[i].runners[r].names| && ss[i].runners[r].names[k] == n;
    assert n in Prefix(ss[i].runners[r].names, |ss[i].runners[r].names|);
    RecordedGrows(ss, t, i, j);
  }

  // ---------------------------------------------------------------- the code of one runner

  /** `t'` is `t` and then actions of `r`. */
  ghost predicate Alone(t: seq<Action>, t': seq<Action>, r: RunnerId) {
    t <= t' && forall k :: |t| <= k < |t'| ==> t'[k].r == r
  }

  /** `t'` is `t` and then actions of `r`, with the actions `others` among them. */
  ghost predicate Among(t: seq<Action>, t': seq<Action>, r: RunnerId, others: seq<Action>) {
    t <= t' && forall k :: |t| <= k < |t'| ==> t'[k].r == r || t'[k] in others
  }

  /** What other runners do, one after another, from state `s` on. */
  ghost predicate CanHappen(s: State, r: RunnerId, others: seq<Action>)
    decreases |others|
  {
    others == [] || (others[0].r != r && Enabled(s, others[0]) && CanHappen(Do(s, others[0]), r, others[1..]))
  }

  ghost function Later(s: State, r: RunnerId, others: seq<Action>): State
    requires CanHappen(s, r, others)
    decreases |others|
  {
    if others == [] then s else Later(Do(s, others[0]), r, others[1..])
  }

  lemma OthersLeave(s: State, a: Action, r: RunnerId)
    requires Enabled(s, a) && a.r != r && r in s.runners
    ensures r in Do(s, a).runners && Do(s, a).runners[r] == s.runners[r] && s.recorded <= Do(s, a).recorded
  {
  }

  /** The lock is taken, and the runner asks to wait for it. */
  predicate MustWait(s: State, ans: Answer) { s.holder.Some? && ans.Ok? }

  /** `others` may happen while `r`, whose first try meets `ans`, waits; and if the wait ends with the lock, it
      is free by then. */
  ghost predicate WaitIs(s: State, r: RunnerId, ans: Answer, others: seq<Action>, again: Answer) {
    MustWait(s, ans) && Enabled(s, GetLock(r, ans)) ==>
      CanHappen(Do(s, GetLock(r, ans)), r, others) &&
      (again.Ok? ==> Later(Do(s, GetLock(r, ans)), r, others).holder.None?)
  }

  /** The state in which a runner that had to wait, or not, comes to hold the lock. */
  ghost function LockedFrom(s: State, r: RunnerId, ans: Answer, others: seq<Action>): State {
    if MustWait(s, ans) && Enabled(s, GetLock(r, ans)) && CanHappen(Do(s, GetLock(r, ans)), r, others) then
      Later(Do(s, GetLock(r, ans)), r, others)
    else s
  }

  /** The database and, as ghost state, the run that led to it. */
  class Database {
    var st: State
    ghost var states: seq<State>
    ghost var actions: seq<Action>

    ghost predicate Valid()
      reads this
    {
      IsRun(states, actions) && states[|actions|] == st
    }

    constructor (recorded: set<Name>, table: bool)
      requires !table ==> recorded == {}
      ensures Valid() && st.recorded == recorded && st.holder.None? && st.runners == map[]
    {
      st := State(map[], None, table, recorded, recorded, map[], map[]);
      states := [State(map[], None, table, recorded, recorded, map[], map[])];
      actions := [];
    }

    method Perform(a: Action)
      requires Valid() && Enabled(st, a)
      modifies this
      ensures Valid() && st == Do(old(st), a) && actions == old(actions) + [a]
    {
      ghost var ss, t := states, actions;
      st := Do(st, a);
      states, actions := states + [st], actions + [a];
      forall k | 0 <= k < |actions| ensures StepAt(states, actions, k) {
        if k < |t| { assert StepAt(ss, t, k); }
      }
    }

    /**
      One call of Run.  `answer(k)` is the server's answer to the k-th statement; `others` is what other runners
      do while this one waits for the lock, and `again` what the wait then meets.

      Whatever the answers, what the code does is a continuation of the run by this runner's actions, with
      `others` among them, so every lemma about runs applies to it; a success means everything is recorded; and
      a run in which every statement succeeds and the lock is free, at once or after the wait, is a success that
      records exactly the missing files and gives the lock back.  If it got the lock, its last statement is the
      release, whatever came of the others.
     */
    method Run(r: RunnerId, names: seq<Name>, answer: nat -> Answer, others: seq<Action>, again: Answer)
      returns (out: Outcome)
      requires Valid() && r !in st.runners && NoDup(names)
      requires WaitIs(Do(st, Start(r, names)), r, answer(0), others, again)
      modifies this
      ensures Valid() && Among(old(actions), actions, r, others) && old(st.recorded) <= st.recorded
      ensures r in st.runners && st.runners[r].phase == Done(out) && st.runners[r].names == names
      ensures out.Success? ==> forall n :: n in names ==> n in st.recorded
      ensures (forall k :: answer(k).Ok?) && (old(st.holder).Some? ==> again.Ok?) ==>
                && out.Success? && st.holder.None?
                && st.recorded == LockedFrom(Do(old(st), Start(r, names)), r, answer(0), others).recorded +
                                  Prefix(names, |names|)
      ensures var got := answer(0).Ok? && (old(st.holder).None? || again.Ok?);
        if got then
          actions != [] && actions[|actions| - 1] == Release(r, answer(1)) &&
          (st.holder == Some(r) <==> answer(1).Refused?)
        else
          out.Failed? && st.recorded == LockedFrom(Do(old(st), Start(r, names)), r, answer(0), others).recorded &&
          (st.holder == Some(r) ==> answer(0).Lost? || again.Lost?)
    {
      Perform(Start(r, names));
      var locked := Lock(r, answer(0), others, again);
      if !locked { return Failed; }
      out := UnderLock(r, answer);
      Perform(Release(r, answer(1)));
      SuccessRecorded(r);
    }

    lemma SuccessRecorded(r: RunnerId)
      requires Valid() && r in st.runners && st.runners[r].phase.Done?
      ensures st.runners[r].phase.out.Success? ==>
                forall n :: n in st.runners[r].names ==> n in st.recorded
    {
      var k := |actions|;
      if st.runners[r].phase.out.Success? {
        forall n | n in st.runners[r].names ensures n in st.recorded {
          SuccessMeansRecorded(states, actions, k, k, r, n);
        }
      }
    }

    /** Other runners act. */
    method Meanwhile(r: RunnerId, others: seq<Action>)
      requires Valid() && r in st.runners && CanHappen(st, r, others)
      modifies this
      ensures Valid() && r in st.runners && st.runners[r] == old(st.runners[r])
      ensures st == Later(old(st), r, others) && old(st.recorded) <= st.recorded
      ensures Among(old(actions), actions, r, others)
      decreases |others|
    {
      if others != [] {
        OthersLeave(st, others[0], r);
        Perform(others[0]);
        Meanwhile(r, others[1..]);
      }
    }

    /** The zero-timeout GET_LOCK, then the bounded wait, in which others may act and let go. */
    method Lock(r: RunnerId, ans: Answer, others: seq<Action>, again: Answer) returns (got: bool)
      requires Valid() && r in st.runners && st.runners[r].phase.Connected? && st.runners[r].session
      requires WaitIs(st, r, ans, others, again)
      modifies this
      ensures Valid() && r in st.runners && Among(old(actions), actions, r, others)
      ensures st.runners[r] == old(st.runners[r]).(phase := if got then Locked else Done(Failed))
      ensures st.recorded == LockedFrom(old(st), r, ans, others).recorded && old(st.recorded) <= st.recorded
      ensures got == (ans.Ok? && (old(st.holder).None? || again.Ok?))
      ensures got ==> st.holder == Some(r)
      ensures !got && st.holder == Some(r) ==> ans.Lost? || again.Lost?
    {
      RunServed(states, actions, |actions|);
      Perform(GetLock(r, ans));
      if st.runners[r].phase.Waiting? {
        Meanwhile(r, others);
        RunServed(states, actions, |actions|);
        Perform(GetLock(r, again));
      }
      got := st.runners[r].phase.Locked?;
    }

    /** The set read once, up front, still answers for the file the loop is at. */
    lemma AppliedIsCurrent(r: RunnerId)
      requires Valid() && r in st.runners && st.runners[r].session
      requires st.runners[r].phase.Loop? && st.runners[r].phase.i < |st.runners[r].names|
      ensures Current(st.runners[r]) in st.runners[r].phase.applied <==>
              Current(st.runners[r]) in st.recorded
    {
      RunInv(states, actions, |actions|);
      assert RunnerOk(st, r);
      if Current(st.runners[r]) !in st.runners[r].phase.applied {
        FreshInLoop(st.runners[r]);
      }
    }

    /** One turn of the loop: skip a recorded file, or execute it and then record it. */
    method ApplyOne(r: RunnerId, exec: Answer, insert: Answer) returns (ok: bool)
      requires Valid() && r in st.runners && st.runners[r].session
      requires st.runners[r].phase.Loop? && st.runners[r].phase.i < |st.runners[r].names|
      modifies this
      ensures Valid() && r in st.runners && st.holder == old(st.holder) && old(st.recorded) <= st.recorded
      ensures Alone(old(actions), actions, r)
      ensures st.runners[r] == old(st.runners[r]).(phase :=
                if ok then Loop(old(st.runners[r].phase.applied), old(st.runners[r].phase.i) + 1)
                else Returning(Failed))
      ensures ok ==> st.recorded == old(st.recorded) + {old(Current(st.runners[r]))}
      // a recorded file is skipped, any other is executed and, if that went well, recorded; it goes on only after both
      ensures var n := old(Current(st.runners[r]));
        if n in old(st.recorded) then
          ok && actions == old(actions) + [Skip(r)] && st.execs == old(st.execs)
        else
          && ok == (exec.Ok? && insert.Ok?)
          && actions == old(actions) + [Exec(r, exec)] + (if exec.Ok? then [Insert(r, insert)] else [])
          && st.execs == (if exec.Refused? then old(st.execs) else Bump(old(st.execs), n))
          && (n in st.recorded <==> exec.Ok? && !insert.Refused?)
    {
      AppliedIsCurrent(r);
      if Current(st.runners[r]) in st.runners[r].phase.applied {
        Perform(Skip(r));
        return true;
      }
      Perform(Exec(r, exec));
      if !exec.Ok? { return false; }
      ok := Note(r, insert);
    }

    /** The INSERT after a successful execution. */
    method Note(r: RunnerId, insert: Answer) returns (ok: bool)
      requires Valid() && r in st.runners && st.runners[r].session
      requires st.runners[r].phase.Executed? && st.runners[r].phase.i < |st.runners[r].names|
      requires Current(st.runners[r]) !in st.recorded
      modifies this
      ensures Valid() && r in st.runners && st.holder == old(st.holder) && ok == insert.Ok?
      ensures actions == old(actions) + [Insert(r, insert)] && st.execs == old(st.execs)
      ensures st.runners[r] == old(st.runners[r]).(phase :=
                if ok then Loop(old(st.runners[r].phase.applied), old(st.runners[r].phase.i) + 1)
                else Returning(Failed))
      ensures st.recorded == old(st.recorded) + if insert.Refused? then {} else {old(Current(st.runners[r]))}
    {
      Perform(Insert(r, insert));
      ok := insert.Ok?;
    }

    method ApplyAll(r: RunnerId, answer: nat -> Answer) returns (out: Outcome)
      requires Valid() && r in st.runners && st.runners[r].session
      requires st.runners[r].phase == Loop(st.recorded, 0)
      modifies this
      ensures Valid() && r in st.runners && st.holder == old(st.holder) && old(st.recorded) <= st.recorded
      ensures Alone(old(actions), actions, r)
      ensures st.runners[r] == old(st.runners[r]).(phase := Returning(out))
      ensures out.Success? ==>
                st.recorded == old(st.recorded) + Prefix(st.runners[r].names, |st.runners[r].names|)
      ensures (forall k :: answer(k).Ok?) ==> out.Success?
    {
      var names := st.runners[r].names;
      var i := 0;
      while i < |names|
        invariant i <= |names| && Valid() && r in st.runners
        invariant st.runners[r] == old(st.runners[r]).(phase := Loop(old(st.recorded), i))
        invariant st.holder == old(st.holder) && st.recorded == old(st.recorded) + Prefix(names, i)
        invariant Alone(old(actions), actions, r)
      {
        var ok := ApplyOne(r, answer(2 * i + 4), answer(2 * i + 5));
        if !ok { return Failed; }
        PrefixGrows(names, i);
        i := i + 1;
      }
      Perform(Finish(r));
      return Success;
    }

    method UnderLock(r: RunnerId, answer: nat -> Answer) returns (out: Outcome)
      requires Valid() && r in st.runners && st.runners[r].phase.Locked? && st.runners[r].session
      modifies this
      ensures Valid() && r in st.runners && Alone(old(actions), actions, r)
      ensures st.runners[r] == old(st.runners[r]).(phase := Returning(out))
      ensures st.holder == old(st.holder) && old(st.recorded) <= st.recorded
      ensures out.Success? ==>
                st.recorded == old(st.recorded) + Prefix(st.runners[r].names, |st.runners[r].names|)
      ensures (forall k :: answer(k).Ok?) ==> out.Success?
    {
      Perform(CreateTable(r, answer(2)));
      if !answer(2).Ok? { return Failed; }
      Perform(ReadApplied(r, answer(3)));
      if !answer(3).Ok? { return Failed; }
      out := ApplyAll(r, answer);
    }
  }
}
