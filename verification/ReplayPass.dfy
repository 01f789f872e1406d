/**
  One replay pass of one process over the files of the spill directory, by name
  (mailgw-go/internal/events/replay.go: Reclaim, Pending, RunOnce, one, reject, unclaim).

  File operations succeed here; what a pass does among other processes, crashes and failing
  operations is module Replay.
 */
module ReplayPass {
  import opened ClaimName
  import opened Numbers
  import opened SpillName

  type Files = map<string, string>

  /** What becomes of a record: logservice takes it, refuses it for good (or the record is broken
      or has no endpoint), or the record goes back for a later pass. */
  datatype Answer = Accepted | Refused | Deferred

  predicate IsClaim(file: string) {
    CLAIM_PREFIX <= file
  }

  /** The event a file holds. */
  function EventOf(file: string): string {
    if IsClaim(file) && ParseClaim(file).Some? then ParseClaim(file).value.name else file
  }

  predicate Known(file: string) {
    IsPending(file) || (IsClaim(file) && ParseClaim(file).Some? && IsPending(EventOf(file)))
  }

  /** A file no pass touches: not listed, and not a claim whose parts can be read.  Files still being written
      are such, and so are claims that some other build named in another way. */
  predicate Foreign(file: string) {
    !IsPending(file) && !(IsClaim(file) && ParseClaim(file).Some?)
  }

  function Foreigners(files: Files): Files {
    map f | f in files && Foreign(f) :: files[f]
  }

  /** Among any foreign files, what module Replay shows of every reachable directory: listed files and readable
      claims of listed files, one file an event.  `index` says which. */
  ghost predicate Tidy(files: Files, index: map<string, string>) {
    TidyBy(files, index, EventOf, Known, Foreign)
  }

  ghost predicate TidyBy(files: Files, index: map<string, string>, event: string -> string, known: string -> bool,
                         foreign: string -> bool)
  {
    (forall e :: e in index ==> index[e] in files && known(index[e]) && event(index[e]) == e) &&
    (forall f :: f in files && !foreign(f) ==> known(f) && event(f) in index && index[event(f)] == f)
  }

  predicate Abandoned(file: string, cutoff: int) {
    IsClaim(file) && ParseClaim(file).Some? && ParseClaim(file).value.at < cutoff
  }

  /** The name a file goes by once abandoned claims are returned. */
  function Home(file: string, cutoff: int): string {
    if Abandoned(file, cutoff) then EventOf(file) else file
  }

  function Rename(files: Files, src: string, dst: string): Files {
    if src in files then (files - {src})[dst := files[src]] else files
  }

  lemma PendingIsNoClaim(f: string)
    requires IsPending(f)
    ensures !IsClaim(f) && EventOf(f) == f
  {
  }

  lemma HomeKeepsEvent(f: string, cutoff: int)
    requires Known(f)
    ensures EventOf(Home(f, cutoff)) == EventOf(f) && Known(Home(f, cutoff))
  {
    if Abandoned(f, cutoff) {
      assert !IsPending(f);
      PendingIsNoClaim(EventOf(f));
    }
  }

  lemma RenameTidyBy(files: Files, index: map<string, string>, f: string, g: string, event: string -> string,
                     known: string -> bool, foreign: string -> bool)
    requires TidyBy(files, index, event, known, foreign)
    requires f in files && !foreign(f) && known(g) && event(g) == event(f)
    ensures TidyBy(Rename(files, f, g), index[event(f) := g], event, known, foreign)
    ensures Rename(files, f, g)[g] == files[f]
    ensures forall e :: e in index && e != event(f) ==>
              index[e] in Rename(files, f, g) && Rename(files, f, g)[index[e]] == files[index[e]]
  {
    var files', index' := Rename(files, f, g), index[event(f) := g];
    forall h | h in files' && !foreign(h) ensures known(h) && event(h) in index' && index'[event(h)] == h {
      if h != g { assert h in files; }
    }
  }

  lemma KnownIsNotForeign(f: string)
    requires Known(f)
    ensures !Foreign(f)
  {
  }

  /** Renaming a file to another name of the same event. */
  lemma RenameTidy(files: Files, index: map<string, string>, f: string, g: string)
    requires Tidy(files, index) && f in files && Known(f) && Known(g) && EventOf(g) == EventOf(f)
    ensures Tidy(Rename(files, f, g), index[EventOf(f) := g])
    ensures Rename(files, f, g)[g] == files[f] && Foreigners(Rename(files, f, g)) == Foreigners(files)
    ensures forall e :: e in index && e != EventOf(f) ==>
              index[e] in Rename(files, f, g) && Rename(files, f, g)[index[e]] == files[index[e]]
  {
    KnownIsNotForeign(f);
    KnownIsNotForeign(g);
    RenameTidyBy(files, index, f, g, EventOf, Known, Foreign);
  }

  /** Every event is where it was, except that abandoned claims are back among the waiting; foreign files are
      as they were. */
  ghost predicate Rehomed(was: Files, before: map<string, string>, cutoff: int, files: Files,
                          index: map<string, string>)
  {
    index.Keys == before.Keys && Foreigners(files) == Foreigners(was) &&
    forall e :: e in before ==>
      before[e] in was && index[e] == Home(before[e], cutoff) && index[e] in files && files[index[e]] == was[before[e]]
  }

  function HomeBy(cutoff: int): string -> string { f => Home(f, cutoff) }

  /** The events whose files are among `entries` are where they were, the others are at home. */
  ghost predicate Placed(was: Files, before: map<string, string>, entries: set<string>, home: string -> string,
                         files: Files, index: map<string, string>) {
    index.Keys == before.Keys &&
    forall e :: e in before ==>
      before[e] in was && index[e] in files && files[index[e]] == was[before[e]] &&
      index[e] == (if before[e] in entries then before[e] else home(before[e]))
  }

  /** Part of the way: the files of `entries` have not been looked at yet. */
  ghost predicate Partway(was: Files, before: map<string, string>, entries: set<string>, cutoff: int,
                          files: Files, index: map<string, string>) {
    entries <= was.Keys && Tidy(files, index) && Placed(was, before, entries, HomeBy(cutoff), files, index) &&
    Foreigners(files) == Foreigners(was)
  }

  /** In a tidy directory a file is the file of one event. */
  lemma OneEventEach(was: Files, before: map<string, string>, f: string)
    requires Tidy(was, before) && f in was && !Foreign(f)
    ensures Known(f) && EventOf(f) in before && before[EventOf(f)] == f
    ensures forall d :: d in before && before[d] == f ==> d == EventOf(f)
  {
  }

  lemma RehomeStep(was: Files, before: map<string, string>, entries: set<string>, cutoff: int,
                   files: Files, index: map<string, string>, f: string)
    requires Tidy(was, before) && Partway(was, before, entries, cutoff, files, index) && f in entries && !Foreign(f)
    ensures f in files && EventOf(f) in index
    ensures Partway(was, before, entries - {f}, cutoff, Rename(files, f, Home(f, cutoff)),
                    index[EventOf(f) := Home(f, cutoff)])
  {
    OneEventEach(was, before, f);
    HomeKeepsEvent(f, cutoff);
    RenameTidy(files, index, f, Home(f, cutoff));
    OneRehomed(was, before, entries, HomeBy(cutoff), files, index, f, EventOf(f), Home(f, cutoff),
               Rename(files, f, Home(f, cutoff)));
  }

  /** A foreign file is left where it is. */
  lemma ForeignStep(was: Files, before: map<string, string>, entries: set<string>, cutoff: int,
                    files: Files, index: map<string, string>, f: string)
    requires Tidy(was, before) && Partway(was, before, entries, cutoff, files, index) && f in entries && Foreign(f)
    ensures Partway(was, before, entries - {f}, cutoff, files, index) && !Abandoned(f, cutoff)
  {
  }

  lemma RenameHome(files: Files, f: string, cutoff: int)
    requires f in files
    ensures Rename(files, f, Home(f, cutoff)) == if Abandoned(f, cutoff) then Rename(files, f, EventOf(f)) else files
  {
  }

  lemma OneRehomed(was: Files, before: map<string, string>, entries: set<string>, home: string -> string,
                   files: Files, index: map<string, string>, f: string, e: string, g: string, files': Files)
    requires Placed(was, before, entries, home, files, index)
    requires e in before && before[e] == f && f in entries && g == home(f)
    requires forall d :: d in before && before[d] == f ==> d == e
    requires f in files && g in files' && files'[g] == files[f]
    requires forall d :: d in index && d != e ==> index[d] in files' && files'[index[d]] == files[index[d]]
    ensures Placed(was, before, entries - {f}, home, files', index[e := g])
  {
  }

  ghost predicate Distinct(names: seq<string>) {
    forall i, j :: 0 <= i < j < |names| ==> names[i] != names[j]
  }

  lemma SortedDistinct(names: seq<string>)
    requires Sorted(names)
    ensures Distinct(names)
  {
    forall i, j | 0 <= i < j < |names| ensures names[i] != names[j] { NotBeforeItself(names[i]); }
  }

  /** No waiting event has a claim by this process already. */
  lemma Claimable(files: Files, index: map<string, string>, names: seq<string>, pid: nat, clock: nat -> int)
    requires Tidy(files, index) && forall k :: 0 <= clock(k) <= MAX_INT64
    requires forall n :: n in names ==> n in files && IsPending(n)
    ensures CanClaim(files, names, pid, clock)
  {
    forall k | 0 <= k < |names| ensures names[k] in files && Claim(pid, clock(k), names[k]) !in files {
      var n := names[k];
      assert n in names;
      ClaimParses(pid, clock(k), n);
      ClaimIsHidden(pid, clock(k), n);
      PendingIsNoClaim(n);
      assert EventOf(Claim(pid, clock(k), n)) == n && !Foreign(Claim(pid, clock(k), n)) && !Foreign(n);
    }
  }

  /** Every listed event is there, and none of the claims to be taken is. */
  ghost predicate CanClaim(files: Files, names: seq<string>, pid: nat, clock: nat -> int) {
    forall k :: 0 <= k < |names| ==> names[k] in files && Claim(pid, clock(k), names[k]) !in files
  }

  datatype Result = Result(replayed: nat, rejected: nat, deferred: nat)

  /** What the directory and rejected/ look like once the named events have been dealt with. */
  function Settle(files: Files, names: set<string>, answer: string -> Answer): Files {
    map f | f in files && (f !in names || answer(f).Deferred?) :: files[f]
  }

  function SettleRejected(files: Files, rejected: Files, names: set<string>, answer: string -> Answer): Files {
    rejected + map f | f in files && f in names && answer(f).Refused? :: files[f]
  }

  function Names(names: seq<string>): set<string> {
    set n | n in names
  }

  function Tally(names: seq<string>, answer: string -> Answer): Result {
    if names == [] then Result(0, 0, 0)
    else
      Counted(Tally(names[..|names| - 1], answer), answer(names[|names| - 1]))
  }

  /** The number of deferrals at the end of the list. */
  function Streak(names: seq<string>, answer: string -> Answer): nat {
    if names == [] || !answer(names[|names| - 1]).Deferred? then 0
    else Streak(names[..|names| - 1], answer) + 1
  }

  const MAX_CONSECUTIVE_FAILURES: nat := 3

  /** No shorter part of the list ends in three deferrals. */
  predicate KeepsGoing(names: seq<string>, answer: string -> Answer) {
    names == [] ||
    (KeepsGoing(names[..|names| - 1], answer) &&
     Streak(names[..|names| - 1], answer) < MAX_CONSECUTIVE_FAILURES)
  }

  /** Nothing stops the pass before its `i`-th event. */
  ghost predicate GoesOn(names: seq<string>, i: nat, answer: string -> Answer, ended: nat -> bool) {
    i <= |names| && KeepsGoing(names[..i], answer) && forall j :: 0 <= j < i ==> !ended(j)
  }

  function Counted(r: Result, answer: Answer): Result {
    match answer
    case Accepted => r.(replayed := r.replayed + 1)
    case Refused => r.(rejected := r.rejected + 1)
    case Deferred => r.(deferred := r.deferred + 1)
  }

  /** The named events with this answer. */
  ghost function Answering(names: seq<string>, answer: string -> Answer, a: Answer): set<string> {
    set n | n in names && answer(n) == a
  }

  /** Each counter is the number of events with that answer. */
  ghost predicate Counts(names: seq<string>, answer: string -> Answer, res: Result) {
    res.replayed == |Answering(names, answer, Accepted)| &&
    res.rejected == |Answering(names, answer, Refused)| &&
    res.deferred == |Answering(names, answer, Deferred)|
  }

  lemma {:induction false} TallyCounts(names: seq<string>, answer: string -> Answer)
    requires Distinct(names)
    ensures Counts(names, answer, Tally(names, answer))
  {
    if names == [] {
    } else {
      var front, last := names[..|names| - 1], names[|names| - 1];
      TallyCounts(front, answer);
      assert names == front + [last] && last !in front;
      AnsweringNext(names, front, last, answer, Accepted);
      AnsweringNext(names, front, last, answer, Refused);
      AnsweringNext(names, front, last, answer, Deferred);
    }
  }

  lemma AnsweringNext(names: seq<string>, front: seq<string>, last: string, answer: string -> Answer, a: Answer)
    requires names == front + [last] && last !in front
    ensures |Answering(names, answer, a)| == |Answering(front, answer, a)| + if answer(last) == a then 1 else 0
  {
    var some := Answering(front, answer, a);
    assert Answering(names, answer, a) == if answer(last) == a then some + {last} else some;
  }

  /** The first `i` names have been dealt with. */
  ghost predicate PassAt(home: Files, rejected0: Files, names: seq<string>, i: nat, answer: string -> Answer,
                         files: Files, rejected: Files, res: Result, fails: nat) {
    i <= |names| &&
    files == Settle(home, Names(names[..i]), answer) &&
    rejected == SettleRejected(home, rejected0, Names(names[..i]), answer) &&
    res == Tally(names[..i], answer) && fails == Streak(names[..i], answer)
  }

  class SpillDir {
    var files: Files
    var rejected: Files

    constructor ()
      ensures files == map[] && rejected == map[]
    {
      files, rejected := map[], map[];
    }

    /** Returns claims older than the grace to the pending set. */
    method Reclaim(now: int, ghost before: map<string, string>) returns (ghost index: map<string, string>)
      requires Tidy(files, before)
      modifies this`files
      ensures Tidy(files, index) && Rehomed(old(files), before, now - CLAIM_GRACE, files, index)
    {
      var cutoff := now - CLAIM_GRACE;
      var entries := files.Keys;
      ghost var was := files;
      index := before;
      while entries != {}
        invariant Partway(was, before, entries, cutoff, files, index)
        decreases entries
      {
        var f :| f in entries;
        if Foreign(f) {
          ForeignStep(was, before, entries, cutoff, files, index, f);
        } else {
          RehomeStep(was, before, entries, cutoff, files, index, f);
          RenameHome(files, f, cutoff);
          index := index[EventOf(f) := Home(f, cutoff)];
        }
        if Abandoned(f, cutoff) {
          files := Rename(files, f, EventOf(f));
        }
        entries := entries - {f};
      }
    }

    /** The waiting events, oldest first. */
    method Pending() returns (names: seq<string>)
      ensures Sorted(names)
      ensures forall f :: f in names <==> f in files && IsPending(f)
    {
      names := [];
      var entries := files.Keys;
      while entries != {}
        invariant entries <= files.Keys && Sorted(names)
        invariant forall f :: f in names <==> f in files && f !in entries && IsPending(f)
        decreases entries
      {
        var e :| e in entries;
        if IsPending(e) {
          InsertSorted(names, e);
          names := Insert(names, e);
        }
        entries := entries - {e};
      }
    }

    /** Claims one event, posts it, and files, removes or returns it. */
    method One(pid: nat, now: int, name: string, answer: Answer)
      requires name in files && Claim(pid, now, name) !in files
      modifies this
      ensures files == if answer.Deferred? then old(files) else old(files) - {name}
      ensures rejected == if answer.Refused? then old(rejected)[name := old(files)[name]] else old(rejected)
    {
      var claim := Claim(pid, now, name);
      files := Rename(files, name, claim);
      match answer {
        case Accepted => files := files - {claim};
        case Refused =>
          rejected := rejected[name := files[claim]];
          files := files - {claim};
        case Deferred => files := Rename(files, claim, name);
      }
    }

    /**
      One pass.  `clock` is read once for Reclaim (`now`) and once for each claim; `ended(i)` is whether the
      context has ended when the i-th event is looked at.

      Whatever the answers, the pass deals with an initial part of the sorted list of waiting events
      (abandoned claims included), stops early only at the third deferral in a row or because the context has
      ended, and counts what it did.
     */
    method RunOnce(pid: nat, now: int, clock: nat -> int, ended: nat -> bool, answer: string -> Answer,
                   ghost before: map<string, string>)
      returns (res: Result, ghost home: Files, ghost index: map<string, string>, ghost names: seq<string>, ghost m: nat)
      requires Tidy(files, before) && forall k :: 0 <= clock(k) <= MAX_INT64
      modifies this
      ensures Tidy(home, index) && Rehomed(old(files), before, now - 900_000_000_000, home, index)
      ensures Sorted(names) && forall f :: f in names <==> f in home && IsPending(f)
      ensures m <= |names|
      ensures PassAt(home, old(rejected), names, m, answer, files, rejected, res, Streak(names[..m], answer))
      ensures m == |names| || Streak(names[..m], answer) == 3 || ended(m)
      ensures GoesOn(names, m, answer, ended)
      ensures Counts(names[..m], answer, res)
    {
      index := Reclaim(now, before);
      home := files;
      var waiting := Pending();
      names := waiting;
      SortedDistinct(names);
      Claimable(home, index, names, pid, clock);
      res, m := RunPass(pid, clock, ended, waiting, answer);
      TallyCounts(names[..m], answer);
    }

    /** One turn of the loop, and its bookkeeping. */
    method Turn(pid: nat, clock: nat -> int, ghost ended: nat -> bool, names: seq<string>, i: nat,
                answer: string -> Answer, res: Result, fails: nat, ghost home: Files, ghost rejected0: Files)
      returns (res': Result, fails': nat)
      requires i < |names| && Distinct(names) && CanClaim(home, names, pid, clock) && !ended(i)
      requires PassAt(home, rejected0, names, i, answer, files, rejected, res, fails)
      requires GoesOn(names, i, answer, ended) && fails < MAX_CONSECUTIVE_FAILURES
      modifies this
      ensures PassAt(home, rejected0, names, i + 1, answer, files, rejected, res', fails')
      ensures GoesOn(names, i + 1, answer, ended) && fails' <= MAX_CONSECUTIVE_FAILURES
    {
      SettleNext(home, rejected0, names, i, answer, files, rejected, res, fails);
      assert names[..i + 1][..i] == names[..i];
      One(pid, clock(i), names[i], answer(names[i]));
      res', fails' := Counted(res, answer(names[i])), if answer(names[i]).Deferred? then fails + 1 else 0;
    }

    method RunPass(pid: nat, clock: nat -> int, ended: nat -> bool, names: seq<string>, answer: string -> Answer)
      returns (res: Result, ghost m: nat)
      requires Distinct(names)
      requires CanClaim(files, names, pid, clock)
      modifies this
      ensures m <= |names|
      ensures PassAt(old(files), old(rejected), names, m, answer, files, rejected, res, Streak(names[..m], answer))
      ensures m == |names| || Streak(names[..m], answer) == 3 || ended(m)
      ensures GoesOn(names, m, answer, ended)
    {
      ghost var home := files;
      res, m := Result(0, 0, 0), 0;
      var fails: nat := 0;
      var i := 0;
      while i < |names|
        invariant m == i <= |names| && fails < MAX_CONSECUTIVE_FAILURES
        invariant PassAt(home, old(rejected), names, i, answer, files, rejected, res, fails)
        invariant GoesOn(names, i, answer, ended)
      {
        if ended(i) { return; }
        res, fails := Turn(pid, clock, ended, names, i, answer, res, fails, home, old(rejected));
        i, m := i + 1, m + 1;
        if fails >= MAX_CONSECUTIVE_FAILURES { return; }
      }
    }
  }

  lemma SettleNext(home: Files, rejected0: Files, names: seq<string>, i: nat, answer: string -> Answer,
                   files: Files, rejected: Files, res: Result, fails: nat)
    requires i < |names| && Distinct(names) && names[i] in home
    requires PassAt(home, rejected0, names, i, answer, files, rejected, res, fails)
    ensures names[i] in files && files.Keys <= home.Keys
    ensures var n := names[i];
            PassAt(home, rejected0, names, i + 1, answer,
                   if answer(n).Deferred? then files else files - {n},
                   if answer(n).Refused? then rejected[n := files[n]] else rejected,
                   Counted(res, answer(n)), if answer(n).Deferred? then fails + 1 else 0)
  {
    var n, done := names[i], Names(names[..i]);
    assert n !in done;
    assert Names(names[..i + 1]) == done + {n};
    assert names[..i + 1][..i] == names[..i];
    SettleMore(home, done, n, answer);
    RejectMore(home, rejected0, done, n, answer);
  }

  lemma SettleMore(home: Files, done: set<string>, n: string, answer: string -> Answer)
    requires n in home && n !in done
    ensures var before := Settle(home, done, answer);
            n in before && before[n] == home[n] &&
            Settle(home, done + {n}, answer) == (if answer(n).Deferred? then before else before - {n})
  {
  }

  lemma RejectMore(home: Files, rejected: Files, done: set<string>, n: string, answer: string -> Answer)
    requires n in home && n !in done
    ensures SettleRejected(home, rejected, done + {n}, answer) ==
              (var r := SettleRejected(home, rejected, done, answer);
               if answer(n).Refused? then r[n := home[n]] else r)
  {
  }

  /** A pass more than the grace after every claim was taken, with every record accepted, leaves nothing but the
      foreign files, nothing waiting and nothing claimed, and counts every event as replayed. */
  lemma DrainedByOnePass(was: Files, before: map<string, string>, home: Files, index: map<string, string>,
                         names: seq<string>, m: nat, now: int, answer: string -> Answer)
    requires Tidy(was, before) && Tidy(home, index) && Rehomed(was, before, now - CLAIM_GRACE, home, index)
    requires Sorted(names) && forall f :: f in names <==> f in home && IsPending(f)
    requires m <= |names| && (m == |names| || Streak(names[..m], answer) == MAX_CONSECUTIVE_FAILURES)
    requires forall f :: f in was && IsClaim(f) && !Foreign(f) ==> Abandoned(f, now - CLAIM_GRACE)
    requires forall n :: answer(n).Accepted?
    ensures Settle(home, Names(names[..m]), answer) == Foreigners(was)
    ensures Tally(names[..m], answer) == Result(|before|, 0, 0)
  {
    NoStreak(names[..m], answer);
    assert names[..m] == names;
    EventsWait(was, before, home, index, now - CLAIM_GRACE);
    AllAccepted(names, answer);
    SortedSize(names);
    SameNames(names, before, home);
    LeavesForeigners(home, Names(names), answer);
  }

  lemma SameNames(names: seq<string>, before: map<string, string>, home: Files)
    requires forall f :: f in names <==> f in home && IsPending(f)
    requires forall e :: e in before <==> e in home && IsPending(e)
    ensures Names(names) == before.Keys && |before.Keys| == |before|
    ensures forall n :: n in Names(names) ==> IsPending(n)
    ensures forall f :: f in home && IsPending(f) ==> f in Names(names)
  {
  }

  lemma NoStreak(names: seq<string>, answer: string -> Answer)
    requires forall n :: answer(n).Accepted?
    ensures Streak(names, answer) == 0
  {
  }

  /** With every claim abandoned, every event is waiting under its own name, and everything else is foreign. */
  lemma EventsWait(was: Files, before: map<string, string>, home: Files, index: map<string, string>, cutoff: int)
    requires Tidy(was, before) && Tidy(home, index) && Rehomed(was, before, cutoff, home, index)
    requires forall f :: f in was && IsClaim(f) && !Foreign(f) ==> Abandoned(f, cutoff)
    ensures forall e :: e in before <==> e in home && IsPending(e)
    ensures forall f :: f in home && !IsPending(f) ==> Foreign(f)
    ensures Foreigners(home) == Foreigners(was)
  {
    forall e | e in before ensures index[e] == e && IsPending(e) {
      KnownIsNotForeign(before[e]);
      WaitsAtHome(before[e], cutoff);
    }
    forall f | f in home && !Foreign(f) ensures IsPending(f) && f in before {
      assert index[EventOf(f)] == f;
    }
    forall f | f in home && IsPending(f) ensures f in before { assert !Foreign(f); }
  }

  lemma LeavesForeigners(home: Files, names: set<string>, answer: string -> Answer)
    requires forall n :: answer(n).Accepted?
    requires forall f :: f in home && IsPending(f) ==> f in names
    requires forall n :: n in names ==> IsPending(n)
    requires forall f :: f in home && !IsPending(f) ==> Foreign(f)
    ensures Settle(home, names, answer) == Foreigners(home)
  {
  }

  lemma WaitsAtHome(f: string, cutoff: int)
    requires Known(f) && (IsClaim(f) ==> Abandoned(f, cutoff))
    ensures Home(f, cutoff) == EventOf(f) && IsPending(EventOf(f))
  {
  }

  lemma {:induction false} AllAccepted(names: seq<string>, answer: string -> Answer)
    requires forall n :: answer(n).Accepted?
    ensures Tally(names, answer) == Result(|names|, 0, 0)
  {
    if names != [] { AllAccepted(names[..|names| - 1], answer); }
  }

  lemma {:induction false} NotBeforeItself(a: string)
    ensures !Before(a, a)
  {
    if a != "" { NotBeforeItself(a[1..]); }
  }

  lemma {:induction false} SortedSize(names: seq<string>)
    requires Sorted(names)
    ensures |set f | f in names| == |names|
  {
    if names != [] {
      var last, front := names[|names| - 1], names[..|names| - 1];
      SortedSize(front);
      NotBeforeItself(last);
      assert (set f | f in names) == (set f | f in front) + {last};
      assert last !in front;
    }
  }
}
