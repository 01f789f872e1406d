/**
  Any number of replayer processes over one spill directory
  (mailgw-go/internal/events/replay.go).

  The directory maps paths to contents; the only operations on it are listing, reading, rename
  (which overwrites) and remove.  A process may die between any two of them, and a file
  operation may fail.  The clock is shared and never goes back.
 */
module Replay {
  import opened Options
  import ClaimName

  /** Processes; two of them may have one pid, as in two containers. */
  type ProcId = nat
  type Pid = nat
  type Name = string
  type Body = string

  /** Where a file can be: waiting, claimed by a process at a time, or set aside.  Module
      ClaimName shows that different claims are different file names. */
  datatype Path = Pending(name: Name) | Claim(name: Name, pid: Pid, at: nat) | Rejected(name: Name)

  type Dir = map<Path, Body>

  /** rename(2): nothing happens unless the source is there. */
  function Rename(dir: Dir, src: Path, dst: Path): Dir {
    if src in dir then (dir - {src})[dst := dir[src]] else dir
  }

  datatype Fate = Open | Released | Reclaimed(seen: nat) | Removed | Filed

  /** One successful claim, kept as history.  If another process ended it, taking its file for its own, `taken` is
      the claim with the same file name that was reclaimed from that process or from one before it. */
  datatype Ticket = Ticket(name: Name, owner: ProcId, pid: Pid, at: nat, posts: nat, fate: Fate, taken: Option<nat>)
  {
    function PathOf(): Path { Claim(name, pid, at) }
  }

  datatype Phase =
    | Resting
    | Listed(claims: set<Path>)                        // Reclaim has read the directory
    | Reclaiming(claims: set<Path>, cutoff: int)       // and the clock
    | Reclaimed_                                       // Reclaim is over
    | Pass(todo: set<Name>)
    | Stamped(todo: set<Name>, name: Name, at: nat)    // claim name formed, rename not yet done
    | Claimed(todo: set<Name>, k: nat)                 // holds ticket k
    | Loaded(todo: set<Name>, k: nat, body: Body)      // has read the record
    | Posting(todo: set<Name>, k: nat, body: Body)     // the request is out
    | Removing(todo: set<Name>, k: nat)
    | Filing(todo: set<Name>, k: nat)
    | Releasing(todo: set<Name>, k: nat)
    | Dead

  /** Where bookkeeping says an event is: no action is guarded by it. */
  datatype Place = InPending | InClaim(k: nat) | InRejected | Gone

  /** `acked` holds the (event, body) pairs some process got a 2xx for; `swept` what the retention
      sweep removed; `shared` the pids that two processes have had while both were alive. */
  datatype State = State(
    dir: Dir, now: nat, procs: map<ProcId, Phase>, pids: map<ProcId, Pid>, shared: set<Pid>,
    bodies: map<Name, Body>, tickets: seq<Ticket>,
    acked: set<(Name, Body)>, swept: set<Name>,
    place: map<Name, Place>)

  datatype Answer = Accepted | Refused | Unavailable

  datatype Step =
    | ListClaims
    | ReadClock
    | ReclaimOne(p: Path, ok: bool)
    | EndReclaim
    | ListPending
    | Stamp(name: Name)
    | TakeClaim
    | Read(ok: bool)
    | SetAside
    | PutBack
    | Post
    | Reply(ans: Answer)
    | Remove(ok: bool)
    | File(ok: bool)
    | Release(ok: bool)
    | EndPass
    | Die

  datatype Action =
    | Begin(id: ProcId, pid: Pid)
    | Run(id: ProcId, step: Step)
    | Spill(name: Name, body: Body)
    | Sweep(name: Name)
    | Tick(dt: nat)

  predicate Holding(f: Phase) {
    f.Claimed? || f.Loaded? || f.Posting? || f.Removing? || f.Filing? || f.Releasing?
  }

  predicate StepEnabled(s: State, id: ProcId, f: Phase, step: Step) {
    match step
    case ListClaims => f.Resting?
    case ReadClock => f.Listed?
    case ReclaimOne(p, _) => f.Reclaiming? && p in f.claims && p.Claim? && p.at < f.cutoff
    case EndReclaim => f.Listed? || f.Reclaiming?
    case ListPending => f.Reclaimed_?
    case Stamp(n) => f.Pass? && n in f.todo
    case TakeClaim => f.Stamped?
    case Read(_) => f.Claimed?
    case SetAside => f.Loaded?
    case PutBack => f.Loaded?
    case Post => f.Loaded?
    case Reply(_) => f.Posting?
    case Remove(_) => f.Removing?
    case File(_) => f.Filing?
    case Release(_) => f.Releasing?
    case EndPass => f.Pass?
    case Die => !f.Dead?
  }

  predicate Enabled(s: State, a: Action) {
    match a
    case Begin(id, _) => id !in s.procs
    case Run(id, step) =>
      id in s.procs && id in s.pids && StepEnabled(s, id, s.procs[id], step) &&
      (Holding(s.procs[id]) ==> s.procs[id].k < |s.tickets|)
    case Spill(name, _) => name !in s.bodies
    case Sweep(name) => Rejected(name) in s.dir
    case Tick(_) => true
  }

  function Go(s: State, id: ProcId, f: Phase): State {
    s.(procs := s.procs[id := f])
  }

  /** The ticket a claim path belongs to, by the bookkeeping. */
  function TicketAt(s: State, p: Path): Option<nat> {
    if p.name in s.place && s.place[p.name].InClaim? then Some(s.place[p.name].k) else None
  }

  /** The reclaimed claim behind a holder that is not the ticket's own. */
  function Taking(ts: seq<Ticket>, k: nat, via: Option<nat>): Option<nat> {
    if via.None? || via.value == k || via.value >= |ts| then None
    else if ts[via.value].taken.Some? then ts[via.value].taken
    else via
  }

  function EndTicket(ts: seq<Ticket>, k: nat, fate: Fate, via: Option<nat>): seq<Ticket>
    requires k < |ts|
  {
    ts[k := ts[k].(fate := fate, taken := Taking(ts, k, via))]
  }

  /** Moves the file at `src` to `dst`, ends the ticket it was under and notes where it is now; `via` is the ticket
      of a holder that does so. */
  function Move(s: State, src: Path, dst: Path, fate: Fate, to: Place, via: Option<nat>): State {
    if src !in s.dir then s
    else
      var k := TicketAt(s, src);
      s.(dir := Rename(s.dir, src, dst),
         tickets := if k.Some? && k.value < |s.tickets| then EndTicket(s.tickets, k.value, fate, via) else s.tickets,
         place := s.place[src.name := to])
  }

  function Delete(s: State, p: Path, fate: Fate, via: Option<nat>): State {
    if p !in s.dir then s
    else
      var k := TicketAt(s, p);
      s.(dir := s.dir - {p},
         tickets := if k.Some? && k.value < |s.tickets| then EndTicket(s.tickets, k.value, fate, via) else s.tickets,
         place := s.place[p.name := Gone])
  }

  function Claims(dir: Dir): set<Path> {
    set p | p in dir && p.Claim?
  }

  function PendingNames(dir: Dir): set<Name> {
    set p | p in dir && p.Pending? :: p.name
  }

  /** The rename is the lock. */
  function DoTake(s: State, id: ProcId, todo: set<Name>, n: Name, at: nat): State
    requires id in s.pids
  {
    if Pending(n) !in s.dir then Go(s, id, Pass(todo))
    else
      Go(s, id, Claimed(todo, |s.tickets|)).(
        dir := Rename(s.dir, Pending(n), Claim(n, s.pids[id], at)),
        tickets := s.tickets + [Ticket(n, id, s.pids[id], at, 0, Open, None)],
        place := s.place[n := InClaim(|s.tickets|)])
  }

  function DoStep(s: State, id: ProcId, f: Phase, step: Step): State
    requires id in s.pids && StepEnabled(s, id, f, step) && (Holding(f) ==> f.k < |s.tickets|)
  {
    match step
    case ListClaims => Go(s, id, Listed(Claims(s.dir)))
    case ReadClock => Go(s, id, Reclaiming(f.claims, s.now - ClaimName.CLAIM_GRACE))
    case ReclaimOne(p, ok) =>
      Go(if ok then Move(s, p, Pending(p.name), Reclaimed(s.now), InPending, None) else s, id,
         f.(claims := f.claims - {p}))
    case EndReclaim => Go(s, id, Reclaimed_)
    case ListPending => Go(s, id, Pass(PendingNames(s.dir)))
    case Stamp(n) => Go(s, id, Stamped(f.todo - {n}, n, s.now))
    case TakeClaim => DoTake(s, id, f.todo, f.name, f.at)
    case Read(ok) =>
      var p := s.tickets[f.k].PathOf();
      Go(s, id, if ok && p in s.dir then Loaded(f.todo, f.k, s.dir[p]) else Releasing(f.todo, f.k))
    case SetAside => Go(s, id, Filing(f.todo, f.k))
    case PutBack => Go(s, id, Releasing(f.todo, f.k))
    case Post =>
      Go(s, id, Posting(f.todo, f.k, f.body)).(
        tickets := s.tickets[f.k := s.tickets[f.k].(posts := s.tickets[f.k].posts + 1)])
    case Reply(ans) =>
      (match ans
       case Accepted => Go(s, id, Removing(f.todo, f.k)).(acked := s.acked + {(s.tickets[f.k].name, f.body)})
       case Refused => Go(s, id, Filing(f.todo, f.k))
       case Unavailable => Go(s, id, Releasing(f.todo, f.k)))
    case Remove(ok) =>
      Go(if ok then Delete(s, s.tickets[f.k].PathOf(), Removed, Some(f.k)) else s, id, Pass(f.todo))
    case File(ok) =>
      var p := s.tickets[f.k].PathOf();
      Go(if ok then Move(s, p, Rejected(p.name), Filed, InRejected, Some(f.k)) else s, id, Pass(f.todo))
    case Release(ok) =>
      var p := s.tickets[f.k].PathOf();
      Go(if ok then Move(s, p, Pending(p.name), Released, InPending, Some(f.k)) else s, id, Pass(f.todo))
    case EndPass => Go(s, id, Resting)
    case Die => Go(s, id, Dead)
  }

  /** A process with this pid is alive. */
  predicate InUse(s: State, pid: Pid) {
    exists a :: a in s.procs && a in s.pids && !s.procs[a].Dead? && s.pids[a] == pid
  }

  function Do(s: State, a: Action): State
    requires Enabled(s, a)
  {
    match a
    case Begin(id, pid) =>
      Go(s, id, Resting).(pids := s.pids[id := pid],
                          shared := if InUse(s, pid) then s.shared + {pid} else s.shared)
    case Run(id, step) => DoStep(s, id, s.procs[id], step)
    case Spill(n, body) =>
      s.(dir := s.dir[Pending(n) := body], bodies := s.bodies[n := body], place := s.place[n := InPending])
    case Sweep(n) => Delete(s, Rejected(n), Removed, None).(swept := s.swept + {n})
    case Tick(dt) => s.(now := s.now + dt)
  }

  ghost predicate Init(s: State) {
    s.dir == map[] && s.procs == map[] && s.pids == map[] && s.shared == {} && s.bodies == map[] && s.tickets == [] &&
    s.acked == {} && s.swept == {} && s.place == map[]
  }

  ghost predicate StepAt(ss: seq<State>, t: seq<Action>, k: nat)
    requires k < |t| < |ss|
  {
    Enabled(ss[k], t[k]) && ss[k + 1] == Do(ss[k], t[k])
  }

  ghost predicate IsRun(ss: seq<State>, t: seq<Action>) {
    |ss| == |t| + 1 && Init(ss[0]) && forall k :: 0 <= k < |t| ==> StepAt(ss, t, k)
  }

  // ---------------------------------------------------------------- invariant

  ghost predicate PathOk(s: State, p: Path) {
    p.name in s.place && p.name in s.bodies && p in s.dir && s.dir[p] == s.bodies[p.name] &&
    match p
    case Pending(n) => s.place[n] == InPending
    case Rejected(n) => s.place[n] == InRejected
    case Claim(n, _, _) =>
      s.place[n].InClaim? && s.place[n].k < |s.tickets| && s.tickets[s.place[n].k].PathOf() == p
  }

  ghost predicate NameOk(s: State, n: Name)
    requires n in s.place
  {
    n in s.bodies &&
    match s.place[n]
    case InPending => Pending(n) in s.dir
    case InRejected => Rejected(n) in s.dir
    case InClaim(k) =>
      k < |s.tickets| && s.tickets[k].name == n && s.tickets[k].fate.Open? && s.tickets[k].PathOf() in s.dir
    case Gone => n in s.swept || (n, s.bodies[n]) in s.acked
  }

  ghost predicate DirOk(s: State) {
    s.place.Keys == s.bodies.Keys &&
    (forall p :: p in s.dir ==> PathOk(s, p)) &&
    (forall n :: n in s.place ==> NameOk(s, n))
  }

  /** Claim `j`, earlier than `k` and with the same file name, was reclaimed past the grace. */
  predicate ReclaimedBefore(ts: seq<Ticket>, j: nat, k: nat)
    requires k < |ts|
  {
    j < k && ts[j].PathOf() == ts[k].PathOf() && ts[j].fate.Reclaimed? &&
    ts[j].fate.seen > ts[j].at + ClaimName.CLAIM_GRACE
  }

  ghost predicate TicketOk(s: State, k: nat)
    requires k < |s.tickets|
  {
    var t := s.tickets[k];
    t.name in s.place && t.posts <= 1 &&
    (t.taken.Some? ==> !t.fate.Open? && t.pid in s.shared && ReclaimedBefore(s.tickets, t.taken.value, k)) &&
    match t.fate
    case Open => s.place[t.name] == InClaim(k)
    case Released => true
    case Reclaimed(w) => w > t.at + ClaimName.CLAIM_GRACE
    case Removed => s.place[t.name].Gone?
    case Filed => s.place[t.name].InRejected? || s.place[t.name].Gone?
  }

  predicate Returned(f: Fate) {
    f.Released? || f.Reclaimed?
  }

  /** A later claim of the same event exists only if the earlier one gave the event back. */
  ghost predicate Successive(ts: seq<Ticket>) {
    forall j, k :: 0 <= j < k < |ts| && ts[j].name == ts[k].name ==> Returned(ts[j].fate)
  }

  ghost predicate TicketsOk(s: State) {
    (forall k :: 0 <= k < |s.tickets| ==> TicketOk(s, k)) && Successive(s.tickets)
  }

  ghost predicate ProcOk(s: State, id: ProcId, f: Phase) {
    id in s.pids && (f.Reclaiming? ==> f.cutoff <= s.now - ClaimName.CLAIM_GRACE) &&
    (f.Stamped? ==> f.at <= s.now) &&
    (Holding(f) ==>
       f.k < |s.tickets| && s.tickets[f.k].owner == id && s.tickets[f.k].pid == s.pids[id] &&
       s.tickets[f.k].name in s.bodies &&
       (s.tickets[f.k].fate.Open? || s.tickets[f.k].fate.Reclaimed? || s.tickets[f.k].taken.Some?) &&
       (forall j :: f.k < j < |s.tickets| && s.tickets[j].PathOf() == s.tickets[f.k].PathOf() ==>
          s.pids[id] in s.shared) &&
       ((f.Claimed? || f.Loaded?) ==> s.tickets[f.k].posts == 0) &&
       ((f.Loaded? || f.Posting?) ==> f.body == s.bodies[s.tickets[f.k].name]) &&
       (f.Removing? ==> (s.tickets[f.k].name, s.bodies[s.tickets[f.k].name]) in s.acked))
  }

  ghost predicate ProcsOk(s: State) {
    s.pids.Keys == s.procs.Keys && LiveOk(s) && forall id :: id in s.procs ==> ProcOk(s, id, s.procs[id])
  }

  predicate Apart(s: State, a: ProcId, b: ProcId)
    requires a in s.procs && b in s.procs && s.pids.Keys == s.procs.Keys
  {
    a != b && !s.procs[a].Dead? && !s.procs[b].Dead? && s.pids[a] == s.pids[b] ==> s.pids[a] in s.shared
  }

  ghost predicate LiveOk(s: State)
    requires s.pids.Keys == s.procs.Keys
  {
    forall a, b {:trigger Apart(s, a, b)} :: a in s.procs && b in s.procs ==> Apart(s, a, b)
  }

  ghost predicate Inv(s: State) {
    DirOk(s) && TicketsOk(s) && ProcsOk(s)
  }

  // ---------------------------------------------------------------- preservation

  lemma LiveStays(s: State, s': State)
    requires s.pids.Keys == s.procs.Keys && LiveOk(s)
    requires s'.procs.Keys == s.procs.Keys && s'.pids == s.pids && s'.shared == s.shared
    requires forall q :: q in s.procs && s.procs[q].Dead? ==> s'.procs[q].Dead?
    ensures LiveOk(s')
  {
    forall a, b | a in s'.procs && b in s'.procs ensures Apart(s', a, b) { assert Apart(s, a, b); }
  }

  /** The file at a claim path is under the ticket the bookkeeping names, and it is open. */
  lemma OpenAt(s: State, p: Path)
    requires DirOk(s) && TicketsOk(s) && p in s.dir && p.Claim?
    ensures TicketAt(s, p).Some? && TicketAt(s, p).value < |s.tickets|
    ensures s.tickets[TicketAt(s, p).value].PathOf() == p && s.tickets[TicketAt(s, p).value].fate.Open?
    ensures s.place[p.name] == InClaim(TicketAt(s, p).value)
  {
    assert PathOk(s, p);
    assert NameOk(s, p.name);
  }

  /** An open ticket is the last one of its name. */
  lemma OpenIsLast(s: State, k: nat, j: nat)
    requires TicketsOk(s) && k < |s.tickets| && s.tickets[k].fate.Open?
    requires j < |s.tickets| && s.tickets[j].name == s.tickets[k].name
    ensures j <= k
  {
  }

  /** What a holder finds at its own path is under its own ticket, or under a later one with the same file name,
      and then its own was reclaimed past the grace, or had been taken from it by one whose was. */
  lemma OwnPath(s: State, id: ProcId, f: Phase) returns (k: nat)
    requires Inv(s) && ProcOk(s, id, f) && Holding(f) && s.tickets[f.k].PathOf() in s.dir
    ensures k < |s.tickets| && TicketAt(s, s.tickets[f.k].PathOf()) == Some(k)
    ensures s.tickets[k].PathOf() == s.tickets[f.k].PathOf() && s.tickets[k].fate.Open?
    ensures k != f.k ==> Taking(s.tickets, k, Some(f.k)).Some? &&
                         ReclaimedBefore(s.tickets, Taking(s.tickets, k, Some(f.k)).value, k) &&
                         s.tickets[k].pid in s.shared
  {
    var p := s.tickets[f.k].PathOf();
    OpenAt(s, p);
    k := TicketAt(s, p).value;
    OpenIsLast(s, k, f.k);
    assert TicketOk(s, f.k);
  }

  /** Ending an open ticket, and moving its file or deleting it. */
  ghost predicate Ends(s: State, k: nat, fate: Fate, to: Place, via: Option<nat>, s': State) {
    k < |s.tickets| && s.tickets[k].fate.Open? && s.tickets[k].PathOf() in s.dir &&
    s'.tickets == EndTicket(s.tickets, k, fate, via) &&
    (Taking(s.tickets, k, via).Some? ==>
       s.tickets[k].pid in s.shared && ReclaimedBefore(s.tickets, Taking(s.tickets, k, via).value, k)) &&
    s'.place == s.place[s.tickets[k].name := to] &&
    s'.bodies == s.bodies && s'.acked == s.acked && s'.swept == s.swept && s'.now == s.now &&
    s'.pids == s.pids && s'.shared == s.shared
  }

  lemma EndTickets(s: State, k: nat, fate: Fate, to: Place, via: Option<nat>, s': State)
    requires TicketsOk(s) && Ends(s, k, fate, to, via, s')
    requires match fate
             case Open => false
             case Released => to == InPending
             case Reclaimed(w) => to == InPending && w > s.tickets[k].at + ClaimName.CLAIM_GRACE
             case Removed => to == Gone
             case Filed => to == InRejected
    ensures TicketsOk(s')
  {
    forall j | 0 <= j < |s'.tickets| ensures TicketOk(s', j) {
      assert TicketOk(s, j);
      if j != k && s.tickets[j].name == s.tickets[k].name { OpenIsLast(s, k, j); }
    }
    forall i, j | 0 <= i < j < |s'.tickets| && s'.tickets[i].name == s'.tickets[j].name
      ensures Returned(s'.tickets[i].fate)
    {
      OpenIsLast(s, k, k);
      if i == k { OpenIsLast(s, k, j); }
    }
  }

  lemma EndMove(s: State, k: nat, dst: Path, fate: Fate, to: Place, via: Option<nat>, s': State)
    requires DirOk(s) && TicketsOk(s) && Ends(s, k, fate, to, via, s')
    requires dst.name == s.tickets[k].name
    requires (dst.Pending? && to == InPending) || (dst.Rejected? && to == InRejected)
    requires s'.dir == Rename(s.dir, s.tickets[k].PathOf(), dst)
    ensures DirOk(s')
  {
    var src := s.tickets[k].PathOf();
    OpenAt(s, src);
    forall p | p in s'.dir ensures PathOk(s', p) {
      if p != dst { assert PathOk(s, p); } else { assert PathOk(s, src); }
    }
    forall n | n in s'.place ensures NameOk(s', n) {
      assert NameOk(s, n);
      if n != dst.name && s.place[n].InClaim? { assert s.tickets[s.place[n].k].name == n; }
    }
  }

  lemma EndDelete(s: State, k: nat, via: Option<nat>, s': State)
    requires DirOk(s) && TicketsOk(s) && Ends(s, k, Removed, Gone, via, s')
    requires s'.dir == s.dir - {s.tickets[k].PathOf()}
    requires (s.tickets[k].name, s.bodies[s.tickets[k].name]) in s.acked
    ensures DirOk(s')
  {
    var src := s.tickets[k].PathOf();
    OpenAt(s, src);
    forall p | p in s'.dir ensures PathOk(s', p) {
      assert PathOk(s, p);
    }
    forall n | n in s'.place ensures NameOk(s', n) {
      assert NameOk(s, n);
      if n != src.name && s.place[n].InClaim? { assert s.tickets[s.place[n].k].name == n; }
    }
  }

  /** Processes other than the one acting keep their part: their own tickets can only be reclaimed, or taken. */
  lemma EndProcs(s: State, k: nat, fate: Fate, to: Place, via: Option<nat>, s': State, actor: ProcId)
    requires ProcsOk(s) && Ends(s, k, fate, to, via, s')
    requires fate.Reclaimed? || s.tickets[k].owner == actor || Taking(s.tickets, k, via).Some?
    requires s'.procs == s.procs
    ensures LiveOk(s')
    ensures forall id :: id in s.procs && (id != actor || fate.Reclaimed?) ==> ProcOk(s', id, s'.procs[id])
  {
    LiveStays(s, s');
    forall id | id in s.procs && (id != actor || fate.Reclaimed?) ensures ProcOk(s', id, s'.procs[id]) {
      assert ProcOk(s, id, s.procs[id]);
    }
  }

  lemma GoOk(s: State, id: ProcId, f: Phase)
    requires Inv(s) && id in s.procs && !s.procs[id].Dead? && ProcOk(s, id, f)
    ensures Inv(Go(s, id, f))
  {
    var s' := Go(s, id, f);
    LiveStays(s, s');
    forall p | p in s'.dir ensures PathOk(s', p) { assert PathOk(s, p); }
    forall n | n in s'.place ensures NameOk(s', n) { assert NameOk(s, n); }
    forall k | 0 <= k < |s'.tickets| ensures TicketOk(s', k) { assert TicketOk(s, k); }
    forall q | q in s'.procs ensures ProcOk(s', q, s'.procs[q]) {
      if q != id { assert ProcOk(s, q, s.procs[q]); }
    }
  }

  lemma BeginOk(s: State, id: ProcId, pid: Pid)
    requires Inv(s) && id !in s.procs
    ensures Inv(Do(s, Begin(id, pid)))
  {
    var s' := Do(s, Begin(id, pid));
    forall a, b | a in s'.procs && b in s'.procs ensures Apart(s', a, b) {
      if a != id && b != id { assert Apart(s, a, b); }
    }
    forall p | p in s'.dir ensures PathOk(s', p) { assert PathOk(s, p); }
    forall n | n in s'.place ensures NameOk(s', n) { assert NameOk(s, n); }
    forall k | 0 <= k < |s'.tickets| ensures TicketOk(s', k) { assert TicketOk(s, k); }
    forall q | q in s'.procs ensures ProcOk(s', q, s'.procs[q]) {
      if q != id { assert ProcOk(s, q, s.procs[q]); }
    }
  }

  lemma ReclaimOk(s: State, p: Path)
    requires Inv(s) && p in s.dir && p.Claim? && p.at + ClaimName.CLAIM_GRACE < s.now
    ensures Inv(Move(s, p, Pending(p.name), Reclaimed(s.now), InPending, None))
  {
    OpenAt(s, p);
    var k := TicketAt(s, p).value;
    var s' := Move(s, p, Pending(p.name), Reclaimed(s.now), InPending, None);
    assert Ends(s, k, Reclaimed(s.now), InPending, None, s');
    EndTickets(s, k, Reclaimed(s.now), InPending, None, s');
    EndMove(s, k, Pending(p.name), Reclaimed(s.now), InPending, None, s');
    if id :| id in s.procs { EndProcs(s, k, Reclaimed(s.now), InPending, None, s', id); }
  }

  /** The holder gives its file another place, or back. */
  lemma HolderMoves(s: State, id: ProcId, f: Phase, dst: Path, fate: Fate, to: Place)
    requires Inv(s) && id in s.procs && s.procs[id] == f && ProcOk(s, id, f) && Holding(f)
    requires s.tickets[f.k].PathOf() in s.dir && dst.name == s.tickets[f.k].name
    requires (fate.Released? && dst.Pending? && to == InPending) || (fate.Filed? && dst.Rejected? && to == InRejected)
    ensures Inv(Go(Move(s, s.tickets[f.k].PathOf(), dst, fate, to, Some(f.k)), id, Pass(f.todo)))
  {
    var k := OwnPath(s, id, f);
    var via := Some(f.k);
    var s' := Move(s, s.tickets[f.k].PathOf(), dst, fate, to, via);
    assert Ends(s, k, fate, to, via, s');
    EndTickets(s, k, fate, to, via, s');
    EndMove(s, k, dst, fate, to, via, s');
    EndProcs(s, k, fate, to, via, s', id);
    Reseat(s', id, Pass(f.todo));
  }

  lemma HolderRemoves(s: State, id: ProcId, f: Phase)
    requires Inv(s) && id in s.procs && s.procs[id] == f && ProcOk(s, id, f) && f.Removing?
    requires s.tickets[f.k].PathOf() in s.dir
    ensures Inv(Go(Delete(s, s.tickets[f.k].PathOf(), Removed, Some(f.k)), id, Pass(f.todo)))
  {
    var k := OwnPath(s, id, f);
    var via := Some(f.k);
    var s' := Delete(s, s.tickets[f.k].PathOf(), Removed, via);
    assert Ends(s, k, Removed, Gone, via, s');
    EndTickets(s, k, Removed, Gone, via, s');
    EndDelete(s, k, via, s');
    EndProcs(s, k, Removed, Gone, via, s', id);
    Reseat(s', id, Pass(f.todo));
  }

  /** Once the file is dealt with, the process may hold nothing. */
  lemma Reseat(s: State, id: ProcId, f: Phase)
    requires DirOk(s) && TicketsOk(s) && ProcOk(s, id, f) && id in s.procs && s.pids.Keys == s.procs.Keys
    requires LiveOk(s) && !s.procs[id].Dead?
    requires forall q :: q in s.procs && q != id ==> ProcOk(s, q, s.procs[q])
    ensures Inv(Go(s, id, f))
  {
    var s' := Go(s, id, f);
    LiveStays(s, s');
    forall p | p in s'.dir ensures PathOk(s', p) { assert PathOk(s, p); }
    forall n | n in s'.place ensures NameOk(s', n) { assert NameOk(s, n); }
    forall k | 0 <= k < |s'.tickets| ensures TicketOk(s', k) { assert TicketOk(s, k); }
    forall q | q in s'.procs ensures ProcOk(s', q, s'.procs[q]) {
      if q != id { assert ProcOk(s, q, s.procs[q]); }
    }
  }

  lemma TakeDir(s: State, id: ProcId, todo: set<Name>, n: Name, at: nat)
    requires Inv(s) && id in s.pids && Pending(n) in s.dir
    ensures DirOk(DoTake(s, id, todo, n, at))
  {
    var s' := DoTake(s, id, todo, n, at);
    assert PathOk(s, Pending(n));
    forall p | p in s'.dir ensures PathOk(s', p) {
      if p != Claim(n, s.pids[id], at) { assert PathOk(s, p); }
    }
    forall m | m in s'.place ensures NameOk(s', m) {
      assert NameOk(s, m);
    }
  }

  lemma TakeTickets(s: State, id: ProcId, todo: set<Name>, n: Name, at: nat)
    requires Inv(s) && id in s.pids && Pending(n) in s.dir
    ensures TicketsOk(DoTake(s, id, todo, n, at))
  {
    var s' := DoTake(s, id, todo, n, at);
    assert PathOk(s, Pending(n));
    forall j | 0 <= j < |s'.tickets| ensures TicketOk(s', j) {
      if j < |s.tickets| { assert TicketOk(s, j); }
    }
    forall i, j | 0 <= i < j < |s'.tickets| && s'.tickets[i].name == s'.tickets[j].name
      ensures Returned(s'.tickets[i].fate)
    {
      assert TicketOk(s, i);
    }
  }

  lemma TakeProcs(s: State, id: ProcId, todo: set<Name>, n: Name, at: nat)
    requires Inv(s) && id in s.procs && !s.procs[id].Dead? && Pending(n) in s.dir
    ensures ProcsOk(DoTake(s, id, todo, n, at))
  {
    var s' := DoTake(s, id, todo, n, at);
    LiveStays(s, s');
    assert PathOk(s, Pending(n));
    forall q | q in s'.procs ensures ProcOk(s', q, s'.procs[q]) {
      if q != id { TakeLeaves(s, id, todo, n, at, q); }
    }
  }

  lemma TakeLeaves(s: State, id: ProcId, todo: set<Name>, n: Name, at: nat, q: ProcId)
    requires Inv(s) && id in s.procs && !s.procs[id].Dead? && Pending(n) in s.dir && q in s.procs && q != id
    ensures ProcOk(DoTake(s, id, todo, n, at), q, s.procs[q])
  {
    assert ProcOk(s, q, s.procs[q]) && Apart(s, q, id);
  }

  lemma TakeOk(s: State, id: ProcId, f: Phase)
    requires Inv(s) && id in s.procs && s.procs[id] == f && f.Stamped?
    ensures Inv(DoTake(s, id, f.todo, f.name, f.at))
  {
    if Pending(f.name) !in s.dir {
      GoOk(s, id, Pass(f.todo));
    } else {
      TakeDir(s, id, f.todo, f.name, f.at);
      TakeTickets(s, id, f.todo, f.name, f.at);
      TakeProcs(s, id, f.todo, f.name, f.at);
    }
  }

  lemma SpillOk(s: State, n: Name, body: Body)
    requires Inv(s) && n !in s.bodies
    ensures Inv(Do(s, Spill(n, body)))
  {
    var s' := Do(s, Spill(n, body));
    LiveStays(s, s');
    forall p | p in s'.dir ensures PathOk(s', p) {
      if p != Pending(n) { assert PathOk(s, p); }
    }
    forall m | m in s'.place ensures NameOk(s', m) {
      if m != n { assert NameOk(s, m); }
    }
    forall k | 0 <= k < |s'.tickets| ensures TicketOk(s', k) { assert TicketOk(s, k); }
    forall q | q in s'.procs ensures ProcOk(s', q, s'.procs[q]) { assert ProcOk(s, q, s.procs[q]); }
  }

  lemma SweepOk(s: State, n: Name)
    requires Inv(s) && Rejected(n) in s.dir
    ensures Inv(Do(s, Sweep(n)))
  {
    var s' := Do(s, Sweep(n));
    assert PathOk(s, Rejected(n));
    LiveStays(s, s');
    forall p | p in s'.dir ensures PathOk(s', p) { assert PathOk(s, p); }
    forall m | m in s'.place ensures NameOk(s', m) { assert NameOk(s, m); }
    forall k | 0 <= k < |s'.tickets| ensures TicketOk(s', k) { assert TicketOk(s, k); }
    forall q | q in s'.procs ensures ProcOk(s', q, s'.procs[q]) { assert ProcOk(s, q, s.procs[q]); }
  }

  lemma TickOk(s: State, dt: nat)
    requires Inv(s)
    ensures Inv(Do(s, Tick(dt)))
  {
    var s' := Do(s, Tick(dt));
    LiveStays(s, s');
    forall p | p in s'.dir ensures PathOk(s', p) { assert PathOk(s, p); }
    forall m | m in s'.place ensures NameOk(s', m) { assert NameOk(s, m); }
    forall k | 0 <= k < |s'.tickets| ensures TicketOk(s', k) { assert TicketOk(s, k); }
    forall q | q in s'.procs ensures ProcOk(s', q, s'.procs[q]) { assert ProcOk(s, q, s.procs[q]); }
  }

  lemma PostProcs(s: State, id: ProcId, f: Phase)
    requires Inv(s) && id in s.procs && s.procs[id] == f && f.Loaded? && f.k < |s.tickets|
    ensures ProcsOk(DoStep(s, id, f, Post))
  {
    var s' := DoStep(s, id, f, Post);
    assert ProcOk(s, id, f);
    LiveStays(s, s');
    forall q | q in s'.procs ensures ProcOk(s', q, s'.procs[q]) { assert ProcOk(s, q, s.procs[q]); }
  }

  lemma PostOk(s: State, id: ProcId, f: Phase)
    requires Inv(s) && id in s.procs && s.procs[id] == f && f.Loaded? && f.k < |s.tickets|
    ensures Inv(DoStep(s, id, f, Post))
  {
    var s' := DoStep(s, id, f, Post);
    assert ProcOk(s, id, f);
    PostProcs(s, id, f);
    forall p | p in s'.dir ensures PathOk(s', p) { assert PathOk(s, p); }
    forall m | m in s'.place ensures NameOk(s', m) { assert NameOk(s, m); }
    forall k | 0 <= k < |s'.tickets| ensures TicketOk(s', k) { assert TicketOk(s, k); }
  }

  lemma AcceptedOk(s: State, id: ProcId, f: Phase)
    requires Inv(s) && id in s.procs && s.procs[id] == f && f.Posting? && f.k < |s.tickets|
    ensures Inv(DoStep(s, id, f, Reply(Accepted)))
  {
    var s' := DoStep(s, id, f, Reply(Accepted));
    assert ProcOk(s, id, f);
    LiveStays(s, s');
    forall p | p in s'.dir ensures PathOk(s', p) { assert PathOk(s, p); }
    forall m | m in s'.place ensures NameOk(s', m) { assert NameOk(s, m); }
    forall k | 0 <= k < |s'.tickets| ensures TicketOk(s', k) { assert TicketOk(s, k); }
    forall q | q in s'.procs ensures ProcOk(s', q, s'.procs[q]) { assert ProcOk(s, q, s.procs[q]); }
  }

  /** Steps of one process, grouped by what they touch. */
  lemma FileStepOk(s: State, id: ProcId, f: Phase, step: Step)
    requires Inv(s) && id in s.procs && s.procs[id] == f && StepEnabled(s, id, f, step)
    requires step.Remove? || step.File? || step.Release?
    requires f.k < |s.tickets|
    ensures Inv(DoStep(s, id, f, step))
  {
    assert ProcOk(s, id, f);
    var p := s.tickets[f.k].PathOf();
    if !step.ok || p !in s.dir {
      GoOk(s, id, Pass(f.todo));
    } else if step.Remove? {
      HolderRemoves(s, id, f);
    } else if step.File? {
      HolderMoves(s, id, f, Rejected(p.name), Filed, InRejected);
    } else {
      HolderMoves(s, id, f, Pending(p.name), Released, InPending);
    }
  }

  lemma ReclaimStepOk(s: State, id: ProcId, f: Phase, p: Path, ok: bool)
    requires Inv(s) && id in s.procs && s.procs[id] == f && StepEnabled(s, id, f, ReclaimOne(p, ok))
    ensures Inv(DoStep(s, id, f, ReclaimOne(p, ok)))
  {
    assert ProcOk(s, id, f);
    if ok && p in s.dir {
      ReclaimOk(s, p);
      GoOk(Move(s, p, Pending(p.name), Reclaimed(s.now), InPending, None), id, f.(claims := f.claims - {p}));
    } else {
      GoOk(s, id, f.(claims := f.claims - {p}));
    }
  }

  /** Steps that change only the phase of their process. */
  lemma ListingStepOk(s: State, id: ProcId, f: Phase, step: Step)
    requires Inv(s) && id in s.procs && s.procs[id] == f && StepEnabled(s, id, f, step)
    requires step.ListClaims? || step.ReadClock? || step.EndReclaim?
    ensures Inv(DoStep(s, id, f, step))
  {
    match step
    case ListClaims => GoOk(s, id, Listed(Claims(s.dir)));
    case ReadClock => GoOk(s, id, Reclaiming(f.claims, s.now - ClaimName.CLAIM_GRACE));
    case EndReclaim => GoOk(s, id, Reclaimed_);
  }

  lemma PassStepOk(s: State, id: ProcId, f: Phase, step: Step)
    requires Inv(s) && id in s.procs && s.procs[id] == f && StepEnabled(s, id, f, step)
    requires step.ListPending? || step.EndPass? || step.Die?
    ensures Inv(DoStep(s, id, f, step))
  {
    match step
    case ListPending => GoOk(s, id, Pass(PendingNames(s.dir)));
    case EndPass => GoOk(s, id, Resting);
    case Die => GoOk(s, id, Dead);
  }

  lemma ReadStepOk(s: State, id: ProcId, f: Phase, ok: bool)
    requires Inv(s) && id in s.procs && s.procs[id] == f && f.Claimed? && f.k < |s.tickets|
    ensures Inv(DoStep(s, id, f, Read(ok)))
  {
    assert ProcOk(s, id, f);
    var p := s.tickets[f.k].PathOf();
    if ok && p in s.dir {
      assert PathOk(s, p);
      GoOk(s, id, Loaded(f.todo, f.k, s.dir[p]));
    } else {
      GoOk(s, id, Releasing(f.todo, f.k));
    }
  }

  lemma HoldingStepOk(s: State, id: ProcId, f: Phase, step: Step)
    requires Inv(s) && id in s.procs && s.procs[id] == f && StepEnabled(s, id, f, step)
    requires Holding(f) ==> f.k < |s.tickets|
    requires step.Stamp? || step.SetAside? || step.PutBack? || (step.Reply? && !step.ans.Accepted?)
    ensures Inv(DoStep(s, id, f, step))
  {
    assert ProcOk(s, id, f);
    match step
    case Stamp(n) => GoOk(s, id, Stamped(f.todo - {n}, n, s.now));
    case SetAside => GoOk(s, id, Filing(f.todo, f.k));
    case PutBack => GoOk(s, id, Releasing(f.todo, f.k));
    case Reply(ans) => GoOk(s, id, if ans.Refused? then Filing(f.todo, f.k) else Releasing(f.todo, f.k));
  }

  lemma LocalStepOk(s: State, id: ProcId, f: Phase, step: Step)
    requires Inv(s) && id in s.procs && s.procs[id] == f && StepEnabled(s, id, f, step)
    requires Holding(f) ==> f.k < |s.tickets|
    requires step.ListClaims? || step.ReadClock? || step.EndReclaim? || step.ListPending? || step.Stamp? ||
             step.Read? || step.SetAside? || step.PutBack? || step.EndPass? || step.Die? ||
             (step.Reply? && !step.ans.Accepted?)
    ensures Inv(DoStep(s, id, f, step))
  {
    if step.Read? {
      ReadStepOk(s, id, f, step.ok);
    } else if step.Stamp? || step.SetAside? || step.PutBack? || step.Reply? {
      HoldingStepOk(s, id, f, step);
    } else if step.ListPending? || step.EndPass? || step.Die? {
      PassStepOk(s, id, f, step);
    } else {
      ListingStepOk(s, id, f, step);
    }
  }

  lemma StepKeepsInv(s: State, a: Action, s': State)
    requires Inv(s) && Enabled(s, a) && s' == Do(s, a)
    ensures Inv(s')
  {
    match a
    case Begin(id, pid) => BeginOk(s, id, pid);
    case Spill(n, body) => SpillOk(s, n, body);
    case Sweep(n) => SweepOk(s, n);
    case Tick(dt) => TickOk(s, dt);
    case Run(id, step) =>
      var f := s.procs[id];
      if step.ReclaimOne? {
        ReclaimStepOk(s, id, f, step.p, step.ok);
      } else if step.TakeClaim? {
        TakeOk(s, id, f);
      } else if step.Post? {
        PostOk(s, id, f);
      } else if step == Reply(Accepted) {
        AcceptedOk(s, id, f);
      } else if step.Remove? || step.File? || step.Release? {
        FileStepOk(s, id, f, step);
      } else {
        LocalStepOk(s, id, f, step);
      }
  }

  // ---------------------------------------------------------------- whole runs

  lemma {:induction false} RunInv(ss: seq<State>, t: seq<Action>, k: nat)
    requires IsRun(ss, t) && k <= |t|
    ensures Inv(ss[k])
  {
    if k > 0 {
      RunInv(ss, t, k - 1);
      assert StepAt(ss, t, k - 1);
      StepKeepsInv(ss[k - 1], t[k - 1], ss[k]);
    }
  }

  /** Every spilled event is in exactly one place with the body it was spilled with, unless some
      process was answered 2xx for that very body or the retention sweep took it. */
  lemma OnePlaceOrAcknowledged(ss: seq<State>, t: seq<Action>, k: nat, n: Name)
    requires IsRun(ss, t) && k <= |t| && n in ss[k].bodies
    ensures forall p, q :: p in ss[k].dir && q in ss[k].dir && p.name == n && q.name == n ==> p == q
    ensures forall p :: p in ss[k].dir && p.name == n ==> ss[k].dir[p] == ss[k].bodies[n]
    ensures (exists p :: p in ss[k].dir && p.name == n) ||
            n in ss[k].swept || (n, ss[k].bodies[n]) in ss[k].acked
  {
    RunInv(ss, t, k);
    var s := ss[k];
    forall p | p in s.dir && p.name == n ensures PathOk(s, p) { assert PathOk(s, p); }
    assert NameOk(s, n);
  }

  /** A process is responsible for posting an event from its successful rename until the answer. */
  predicate Responsible(s: State, id: ProcId, n: Name) {
    id in s.procs &&
    var f := s.procs[id];
    (f.Claimed? || f.Loaded? || f.Posting?) && f.k < |s.tickets| && s.tickets[f.k].name == n
  }

  /** Claim `k` was reclaimed when it was seen to be more than fifteen minutes old; or, but only under a pid that two
      live processes had at once, an earlier one with its file name was, and `k` was then ended by that one's
      holder. */
  predicate PastGrace(s: State, k: nat)
    requires k < |s.tickets|
  {
    var j := if s.tickets[k].taken.Some? then s.tickets[k].taken.value else k;
    j <= k && (j < k ==> s.tickets[k].pid in s.shared) && s.tickets[j].PathOf() == s.tickets[k].PathOf() &&
    s.tickets[j].fate.Reclaimed? && s.tickets[j].fate.seen > s.tickets[j].at + 900_000_000_000
  }

  /** A claim its holder did not end itself, and that is not open. */
  lemma EndedByOther(s: State, k: nat)
    requires TicketsOk(s) && k < |s.tickets| && (s.tickets[k].fate.Reclaimed? || s.tickets[k].taken.Some?)
    ensures PastGrace(s, k)
  {
    assert TicketOk(s, k);
  }

  /** Two processes are responsible for one event at once only if a Reclaim has taken back one of the two claims
      past the grace, or one before it under the same file name. */
  lemma SharedOnlyAfterGrace(ss: seq<State>, t: seq<Action>, k: nat, a: ProcId, b: ProcId, n: Name)
    requires IsRun(ss, t) && k <= |t| && a != b
    requires Responsible(ss[k], a, n) && Responsible(ss[k], b, n)
    ensures PastGrace(ss[k], ss[k].procs[a].k) || PastGrace(ss[k], ss[k].procs[b].k)
  {
    RunInv(ss, t, k);
    var s := ss[k];
    var i, j := s.procs[a].k, s.procs[b].k;
    assert ProcOk(s, a, s.procs[a]) && ProcOk(s, b, s.procs[b]);
    if s.tickets[i].fate.Open? && s.tickets[i].taken.None? {
      OpenIsLast(s, i, j);
      assert TicketOk(s, i) && TicketOk(s, j);
      EndedByOther(s, j);
    } else {
      EndedByOther(s, i);
    }
  }

  /** Each claim posts at most once, and a later claim of the same event exists only because the earlier one was
      released by its own holder, or reclaimed after the grace, it or one before it under the same file name. */
  lemma RepostOnlyAfterReturn(ss: seq<State>, t: seq<Action>, k: nat, i: nat, j: nat)
    requires IsRun(ss, t) && k <= |t| && i < j < |ss[k].tickets|
    requires ss[k].tickets[i].name == ss[k].tickets[j].name
    ensures ss[k].tickets[i].posts <= 1 && ss[k].tickets[j].posts <= 1
    ensures (ss[k].tickets[i].fate.Released? && ss[k].tickets[i].taken.None?) || PastGrace(ss[k], i)
  {
    RunInv(ss, t, k);
    assert TicketOk(ss[k], i) && TicketOk(ss[k], j);
    if ss[k].tickets[i].fate.Reclaimed? || ss[k].tickets[i].taken.Some? { EndedByOther(ss[k], i); }
  }
}
