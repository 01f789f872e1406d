/**
  Every directory the replayers can reach is drained by one undisturbed pass: the protocol of
  module Replay and the pass of module ReplayPass put together.
 */
module ReplayDrain {
  import opened Options
  import opened ClaimName
  import opened Numbers
  import R = Replay
  import P = ReplayPass

  function FileName(p: R.Path): string {
    match p
    case Pending(n) => n
    case Claim(n, pid, at) => ClaimName.Claim(pid, at, n)
    case Rejected(n) => n
  }

  /** Names a replayer lists, and times a nanosecond count can hold. */
  ghost predicate Named(dir: R.Dir) {
    forall p :: p in dir ==> IsPending(p.name) && (p.Claim? ==> p.at <= MAX_INT64)
  }

  lemma FileNameEvent(p: R.Path)
    requires IsPending(p.name) && !p.Rejected? && (p.Claim? ==> p.at <= MAX_INT64)
    ensures P.EventOf(FileName(p)) == p.name && P.Known(FileName(p))
    ensures p.Claim? <==> P.IsClaim(FileName(p))
    ensures p.Claim? ==> ParseClaim(FileName(p)) == Some(Parsed(p.name, p.at))
  {
    P.PendingIsNoClaim(p.name);
    if p.Claim? {
      ClaimParses(p.pid, p.at, p.name);
      ClaimIsHidden(p.pid, p.at, p.name);
    }
  }

  /** One file an event. */
  ghost predicate Single(dir: R.Dir) {
    forall p, q :: p in dir && q in dir && p.name == q.name ==> p == q
  }

  /** Where each waiting or claimed event is. */
  ghost function PathOf(dir: R.Dir): map<string, R.Path>
    requires Single(dir)
  {
    map p | p in dir && !p.Rejected? :: p.name := p
  }

  /** The spill directory by file name: one entry for every path, and otherwise foreign files only. */
  ghost predicate Shows(files: P.Files, dir: R.Dir) {
    Single(dir) ==>
      (forall n :: n in PathOf(dir) ==>
         FileName(PathOf(dir)[n]) in files && files[FileName(PathOf(dir)[n])] == dir[PathOf(dir)[n]]) &&
      (forall f :: f in files && !P.Foreign(f) ==>
         P.EventOf(f) in PathOf(dir) && FileName(PathOf(dir)[P.EventOf(f)]) == f)
  }

  lemma ShownTidy(files: P.Files, paths: map<string, R.Path>, index: map<string, string>)
    requires forall n :: n in paths ==>
               paths[n].name == n && !paths[n].Rejected? && IsPending(n) &&
               (paths[n].Claim? ==> paths[n].at <= MAX_INT64)
    requires index == map n | n in paths :: FileName(paths[n])
    requires forall n :: n in paths ==> index[n] in files
    requires forall f :: f in files && !P.Foreign(f) ==> P.EventOf(f) in paths && index[P.EventOf(f)] == f
    ensures P.Tidy(files, index)
  {
    forall e | e in index ensures P.EventOf(index[e]) == e && P.Known(index[e]) {
      FileNameEvent(paths[e]);
    }
  }

  lemma ReachableNamed(ss: seq<R.State>, t: seq<R.Action>, k: nat)
    requires R.IsRun(ss, t) && k <= |t|
    requires forall n :: n in ss[k].bodies ==> IsPending(n)
    requires forall p :: p in ss[k].dir && p.Claim? ==> p.at <= MAX_INT64
    ensures Named(ss[k].dir) && Single(ss[k].dir)
  {
    R.RunInv(ss, t, k);
    forall p | p in ss[k].dir ensures R.PathOk(ss[k], p) { assert R.PathOk(ss[k], p); }
  }

  /**
    From any state any number of replayers can reach, with claims left by dead processes and among any
    foreign files, one pass later than the grace after every claim, with every record accepted, leaves
    the foreign files as they were, nothing waiting and nothing claimed, and replays every event there was.
   */
  method DrainReachable(ghost ss: seq<R.State>, ghost t: seq<R.Action>, ghost k: nat,
                        d: P.SpillDir, pid: nat, now: int, clock: nat -> int, answer: string -> P.Answer)
    returns (res: P.Result)
    requires R.IsRun(ss, t) && k <= |t|
    requires forall n :: n in ss[k].bodies ==> IsPending(n)
    requires Shows(d.files, ss[k].dir) && 0 <= now <= MAX_INT64 && forall i :: 0 <= clock(i) <= MAX_INT64
    requires forall p :: p in ss[k].dir && p.Claim? ==> p.at + CLAIM_GRACE < now
    requires forall n :: answer(n).Accepted?
    modifies d
    ensures d.files == P.Foreigners(old(d.files))
    ensures Single(ss[k].dir) && res == P.Result(|PathOf(ss[k].dir)|, 0, 0)
  {
    ReachableNamed(ss, t, k);
    ghost var was, paths := d.files, PathOf(ss[k].dir);
    ghost var before := map n | n in paths :: FileName(paths[n]);
    ShownTidy(was, paths, before);
    ClaimsAbandoned(was, paths, before, now - CLAIM_GRACE);
    ghost var home, index, names, m;
    res, home, index, names, m := d.RunOnce(pid, now, clock, _ => false, answer, before);
    P.DrainedByOnePass(was, before, home, index, names, m, now, answer);
    assert before.Keys == paths.Keys;
    assert |before| == |before.Keys| && |paths| == |paths.Keys|;
  }

  lemma ClaimsAbandoned(files: P.Files, paths: map<string, R.Path>, index: map<string, string>, cutoff: int)
    requires forall n :: n in paths ==>
               paths[n].name == n && !paths[n].Rejected? && IsPending(n) &&
               (paths[n].Claim? ==> paths[n].at <= MAX_INT64)
    requires forall n :: n in paths && paths[n].Claim? ==> paths[n].at < cutoff
    requires index.Keys == paths.Keys && forall n :: n in paths ==> index[n] == FileName(paths[n])
    requires forall f :: f in files && !P.Foreign(f) ==> P.EventOf(f) in index && index[P.EventOf(f)] == f
    ensures forall f :: f in files && P.IsClaim(f) && !P.Foreign(f) ==> P.Abandoned(f, cutoff)
  {
    forall f | f in files && P.IsClaim(f) && !P.Foreign(f) ensures P.Abandoned(f, cutoff) {
      FileNameEvent(paths[P.EventOf(f)]);
    }
  }
}
