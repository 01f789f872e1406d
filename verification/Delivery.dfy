/**
  Deliveries sharing the connection pool, with cancellation (mailgw-go/internal/deliver/client.go
  and pool.go).

  Every delivery has a guard whose callback runs on its own goroutine once the context ends.
  The actions are the points at which the goroutines can interleave: critical sections of the
  pool's and the guards' mutexes, and network exchanges, whose result is nondeterministic.
 */
module Delivery {
  import opened Options
  import opened PoolKey
  import opened Pool
  import Transaction

  type DeliveryId = nat

  /** `insecureAuth` allows AUTH on a session that is not encrypted. */
  datatype Relay = Relay(addr: string, user: string, policy: Policy, insecureAuth: bool)

  function IdOf(r: Relay, local: string): Identity { Identity(r.addr, r.user, r.policy, local) }

  /** What a connection is: where it leads, as whom it authenticated ("" for nobody), whether it
      is encrypted, and the EHLO name it presented. */
  datatype Session = Session(addr: string, user: string, encrypted: bool, local: string)

  /** `made` (the relay it was dialled for) and `at` are bookkeeping: no action is guarded by them. */
  datatype Place = HeldBy(d: DeliveryId) | InPool(key: string) | Retired

  datatype Conn = Conn(open: bool, sess: Session, made: Relay, at: Place)

  datatype Phase =
    | Borrowing                            // in the loop of Pool.Get
    | Candidate(p: Pooled)                 // taken from the pool, not yet armed
    | Probing(p: Pooled)                   // armed, RSET in flight
    | Dialling(plain: bool)
    | Dialled(plain: bool)                 // socket open, guard not yet told
    | Guarded(plain: bool)                 // greeting, and STARTTLS unless plain
    | Secured                              // STARTTLS done, EHLO to send
    | Greeted                              // EHLO answered, AUTH next
    | Ready(messages: int)                 // the session may carry the message
    | Ending(poolable: bool, messages: int)  // the deferred release is still to run
    | Stopped(poolable: bool, messages: int) // the callback can no longer be started
    | Settling(poolable: bool, messages: int) // guard cleared, connection's fate to decide
    | Over

  /** The AfterFunc callback: not started, started on its goroutine, or finished or stopped. */
  datatype Callback = Waiting | Started | Spent

  datatype Attempt = Attempt(
    relay: Relay, local: string, pooling: bool, phase: Phase,
    held: Option<ConnId>, guard: Option<ConnId>, callback: Callback)
  {
    function Id(): Identity { IdOf(relay, local) }

    function PoolKeyOf(): string { Key(Id()) }
  }

  /** `relays` and `local` are the process's own: the relays it delivers to, and the one EHLO name it has. */
  datatype State = State(
    relays: set<Relay>, local: string, limits: Limits, now: int, idle: Idle,
    conns: map<ConnId, Conn>, ds: map<DeliveryId, Attempt>)

  /** What one delivery, or its guard's callback, does next. */
  datatype Move =
    | Take | DropStale | Prepare | Probe(ok: bool)
    | Dial(c: ConnId) | DialFails | Arm | StartTls(ok: bool) | Hello(ok: bool) | Authenticate(ok: bool)
    | Send(asked: seq<string>, replies: Transaction.Relay) | Stop | Clear | Settle
    | Cancel | FireClose

  datatype Action =
    | Start(d: DeliveryId, relay: Relay, pooling: bool)
    | Act(d: DeliveryId, move: Move)
    | Reap
    | ClosePool
    | CloseRetired(c: ConnId)
    | Tick(dt: nat)

  predicate Outlived(s: State, p: Pooled) {
    s.limits.idleTimeout > 0 && s.now - p.usedAt > s.limits.idleTimeout
  }

  predicate Holds(s: State, x: Attempt) {
    x.held.Some? && x.held.value in s.conns
  }

  function Held(s: State, x: Attempt): Conn
    requires Holds(s, x)
  {
    s.conns[x.held.value]
  }

  /** A network exchange can succeed only on a socket this side has not closed. */
  predicate CanAnswer(s: State, x: Attempt, ok: bool) {
    Holds(s, x) && (ok ==> Held(s, x).open)
  }

  predicate MoveEnabled(s: State, x: Attempt, m: Move) {
    match m
    case Take => x.phase.Borrowing?
    case DropStale => x.phase.Candidate? && Holds(s, x) && Outlived(s, x.phase.p)
    case Prepare => x.phase.Candidate? && Holds(s, x) && !Outlived(s, x.phase.p)
    case Probe(ok) => x.phase.Probing? && CanAnswer(s, x, ok)
    case Dial(c) => x.phase.Dialling? && c !in s.conns
    case DialFails => x.phase.Dialling?
    case Arm => x.phase.Dialled? && Holds(s, x)
    case StartTls(ok) => x.phase.Guarded? && !x.phase.plain && CanAnswer(s, x, ok)
    case Hello(ok) => (x.phase.Secured? || (x.phase.Guarded? && x.phase.plain)) && CanAnswer(s, x, ok)
    case Authenticate(ok) =>
      x.phase.Greeted? && CanAnswer(s, x, ok) &&
      (ok && x.relay.user != "" ==> Held(s, x).sess.encrypted || x.relay.insecureAuth)
    case Send(_, _) => x.phase.Ready?
    case Stop => x.phase.Ending?
    case Clear => x.phase.Stopped?
    case Settle => x.phase.Settling? && (x.held.Some? ==> Holds(s, x))
    case Cancel => x.callback.Waiting?
    case FireClose => x.callback.Started? && (x.guard.Some? ==> x.guard.value in s.conns)
  }

  ghost predicate Enabled(s: State, a: Action) {
    match a
    case Start(d, relay, _) => d !in s.ds && relay in s.relays
    case Act(d, m) => d in s.ds && MoveEnabled(s, s.ds[d], m)
    case Reap => s.limits.idleTimeout > 0
    case ClosePool => true
    case CloseRetired(c) => c in s.conns && s.conns[c].at.Retired?
    case Tick(_) => true
  }

  /** The delivery goes on, and its connection becomes `n`. */
  function With(s: State, d: DeliveryId, x: Attempt, c: ConnId, n: Conn): State {
    s.(ds := s.ds[d := x], conns := s.conns[c := n])
  }

  function On(s: State, d: DeliveryId, x: Attempt): State {
    s.(ds := s.ds[d := x])
  }

  /** The delivery closes the connection it holds and gives it up. */
  function GiveUp(s: State, d: DeliveryId, x: Attempt, p: Phase): State
    requires Holds(s, x)
  {
    With(s, d, x.(held := None, phase := p), x.held.value, Held(s, x).(open := false, at := Retired))
  }

  /** Connections that left the pool without being handed to a delivery. */
  function Evict(conns: map<ConnId, Conn>, idle': Idle): map<ConnId, Conn> {
    map c | c in conns ::
      if conns[c].at.InPool? && !Contains(At(idle', conns[c].at.key), c)
      then conns[c].(at := Retired) else conns[c]
  }

  /** The pool cut down to `idle'`. */
  function Shrunk(s: State, idle': Idle): State {
    s.(idle := idle', conns := Evict(s.conns, idle'))
  }

  predicate Contains(cs: seq<Pooled>, c: ConnId) {
    exists i :: 0 <= i < |cs| && cs[i].conn == c
  }

  function FirstDial(x: Attempt): Phase {
    Dialling(x.relay.policy.Cleartext?)
  }

  ghost function MoveDo(s: State, d: DeliveryId, x: Attempt, m: Move): State
    requires MoveEnabled(s, x, m)
  {
    match m
    case Take => DoTake(s, d, x)
    case DropStale => GiveUp(s, d, x, Borrowing)
    case Prepare => On(s, d, x.(guard := x.held, phase := Probing(x.phase.p)))
    case Probe(ok) =>
      if ok then On(s, d, x.(phase := Ready(x.phase.p.messages))) else GiveUp(s, d, x, Borrowing)
    case Dial(c) =>
      With(s, d, x.(held := Some(c), phase := Dialled(x.phase.plain)), c,
           Conn(true, Session(x.relay.addr, "", false, x.local), x.relay, HeldBy(d)))
    case DialFails => On(s, d, x.(phase := Ending(false, 0)))
    case Arm => On(s, d, x.(guard := x.held, phase := Guarded(x.phase.plain)))
    case StartTls(ok) =>
      if ok then With(s, d, x.(phase := Secured), x.held.value,
                      Held(s, x).(sess := Held(s, x).sess.(encrypted := true)))
      else GiveUp(s, d, x, if x.relay.policy.Required? then Ending(false, 0) else Dialling(true))
    case Hello(ok) =>
      if ok then On(s, d, x.(phase := Greeted)) else GiveUp(s, d, x, Ending(false, 0))
    case Authenticate(ok) =>
      if x.relay.user == "" then On(s, d, x.(phase := Ready(0)))
      else if ok then With(s, d, x.(phase := Ready(0)), x.held.value,
                           Held(s, x).(sess := Held(s, x).sess.(user := x.relay.user)))
      else GiveUp(s, d, x, Ending(false, 0))
    case Send(asked, replies) =>
      On(s, d, x.(phase := Ending(Transaction.Reusable(asked, replies), x.phase.messages + 1)))
    case Stop =>
      On(s, d, x.(phase := Stopped(x.phase.poolable, x.phase.messages),
                  callback := if x.callback.Waiting? then Spent else x.callback))
    case Clear => On(s, d, x.(guard := None, phase := Settling(x.phase.poolable, x.phase.messages)))
    case Settle => DoSettle(s, d, x)
    case Cancel => On(s, d, x.(callback := Started))
    case FireClose =>
      if x.guard.None? then On(s, d, x.(callback := Spent))
      else With(s, d, x.(callback := Spent), x.guard.value, s.conns[x.guard.value].(open := false))
  }

  /** Pool.take: the newest connection under the key, or the first dial. */
  function DoTake(s: State, d: DeliveryId, x: Attempt): State {
    var cs := At(s.idle, x.PoolKeyOf());
    if cs == [] then On(s, d, x.(phase := FirstDial(x)))
    else
      var p := cs[|cs| - 1];
      var x' := x.(phase := Candidate(p), held := Some(p.conn));
      (if p.conn in s.conns then With(s, d, x', p.conn, s.conns[p.conn].(at := HeldBy(d))) else On(s, d, x'))
      .(idle := Taken(s.idle, x.PoolKeyOf()))
  }

  /** Pool.Put when the session may carry another message, otherwise Discard. */
  ghost function DoSettle(s: State, d: DeliveryId, x: Attempt): State
    requires x.phase.Settling? && (x.held.Some? ==> Holds(s, x))
  {
    if x.held.None? then On(s, d, x.(phase := Over))
    else if x.pooling && x.phase.poolable && Accepts(s.limits, s.idle, x.PoolKeyOf(), x.phase.messages) then
      Keep(s, d, x, Pooled(x.held.value, x.phase.messages, s.now))
    else GiveUp(s, d, x, Over)
  }

  /** The connection goes to the pool. */
  ghost function Keep(s: State, d: DeliveryId, x: Attempt, p: Pooled): State
    requires Holds(s, x)
  {
    With(s, d, x.(held := None, phase := Over), x.held.value, Held(s, x).(at := InPool(x.PoolKeyOf())))
    .(idle := Offered(s.limits, s.idle, x.PoolKeyOf(), p))
  }

  /** A delivery at its first step: the pool, or the first dial if there is none. */
  function Begun(s: State, relay: Relay, pooling: bool): Attempt {
    var x := Attempt(relay, s.local, pooling, Borrowing, None, None, Waiting);
    if pooling then x else x.(phase := FirstDial(x))
  }

  ghost function Do(s: State, a: Action): State
    requires Enabled(s, a)
  {
    match a
    case Start(d, relay, pooling) => On(s, d, Begun(s, relay, pooling))
    case Act(d, m) => MoveDo(s, d, s.ds[d], m)
    case Reap => Shrunk(s, Swept(s.idle, s.now - s.limits.idleTimeout))
    case ClosePool => Shrunk(s, map[])
    case CloseRetired(c) => s.(conns := s.conns[c := s.conns[c].(open := false)])
    case Tick(dt) => s.(now := s.now + dt)
  }

  ghost predicate Init(s: State) {
    s.idle == map[] && s.conns == map[] && s.ds == map[] && forall r :: r in s.relays ==> IsAddr(r.addr)
  }

  ghost predicate StepAt(ss: seq<State>, t: seq<Action>, k: nat)
    requires k < |t| < |ss|
  {
    Enabled(ss[k], t[k]) && ss[k + 1] == Do(ss[k], t[k])
  }

  ghost predicate IsRun(ss: seq<State>, t: seq<Action>) {
    |ss| == |t| + 1 && Init(ss[0]) && forall k :: 0 <= k < |t| ==> StepAt(ss, t, k)
  }

  // ---------------------------------------------------------------- invariant

  /** A session of this kind can come of dialling the relay: encrypted unless its policy is none, and in the
      clear unless it is required or there is a user and AUTH in the clear is not allowed. */
  predicate Makes(r: Relay, local: string, n: Session) {
    n.addr == r.addr && n.user == r.user && n.local == local &&
    if n.encrypted then !r.policy.Cleartext? else !r.policy.Required? && (r.user == "" || r.insecureAuth)
  }

  /** The connection can carry messages of the relay it was dialled for. */
  predicate Readied(n: Conn) { Makes(n.made, n.sess.local, n.sess) }

  /** Whether the policy lets a session be dialled without STARTTLS, or with it. */
  predicate MayDial(r: Relay, plain: bool) { if plain then !r.policy.Required? else !r.policy.Cleartext? }

  /** How far the session has got, by phase; one that may carry a message was made for a relay with the
      delivery's key. */
  predicate Suits(x: Attempt, n: Conn) {
    match x.phase
    case Dialled(_) => n.made == x.relay && n.sess == Session(x.relay.addr, "", false, x.local)
    case Guarded(_) => n.made == x.relay && n.sess == Session(x.relay.addr, "", false, x.local)
    case Secured => n.made == x.relay && n.sess == Session(x.relay.addr, "", true, x.local)
    case Greeted =>
      n.made == x.relay && n.sess == Session(x.relay.addr, "", n.sess.encrypted, x.local) &&
      MayDial(x.relay, !n.sess.encrypted)
    case _ => Readied(n) && Key(IdOf(n.made, n.sess.local)) == x.PoolKeyOf()
  }

  predicate Shape(x: Attempt) {
    match x.phase
    case Borrowing => x.held.None?
    case Dialling(plain) => x.held.None? && MayDial(x.relay, plain)
    case Dialled(plain) => x.held.Some? && MayDial(x.relay, plain)
    case Guarded(plain) => x.held.Some? && MayDial(x.relay, plain)
    case Secured => x.held.Some? && MayDial(x.relay, false)
    case Ending(_, _) => true
    case Stopped(_, _) => true
    case Settling(_, _) => x.guard.None?
    case Over => x.held.None? && x.guard.None?
    case _ => x.held.Some?
  }

  /** The guard watches what the delivery holds, or something it has closed and given up. */
  predicate GuardOk(conns: map<ConnId, Conn>, x: Attempt) {
    x.guard.Some? ==>
      x.guard.value in conns &&
      (x.held == x.guard || (conns[x.guard.value].at.Retired? && !conns[x.guard.value].open))
  }

  predicate HeldOk(conns: map<ConnId, Conn>, d: DeliveryId, x: Attempt) {
    x.held.Some? ==>
      x.held.value in conns && conns[x.held.value].at == HeldBy(d) && Suits(x, conns[x.held.value])
  }

  predicate AttemptOk(conns: map<ConnId, Conn>, d: DeliveryId, x: Attempt) {
    Shape(x) && GuardOk(conns, x) && HeldOk(conns, d, x)
  }

  /** A connection is filed under the key of the relay it was made for. */
  predicate EntryOk(conns: map<ConnId, Conn>, key: string, c: ConnId) {
    c in conns && conns[c].at == InPool(key) && Readied(conns[c]) &&
    Key(IdOf(conns[c].made, conns[c].sess.local)) == key
  }

  ghost predicate ListFiled(conns: map<ConnId, Conn>, key: string, cs: seq<Pooled>) {
    (forall i :: 0 <= i < |cs| ==> EntryOk(conns, key, cs[i].conn)) &&
    (forall i, j :: 0 <= i < j < |cs| ==> cs[i].conn != cs[j].conn)
  }

  ghost predicate IdleOk(conns: map<ConnId, Conn>, idle: Idle) {
    forall k :: k in idle ==> ListFiled(conns, k, idle[k])
  }

  ghost predicate DeliveriesOk(s: State) {
    forall d :: d in s.ds ==> AttemptOk(s.conns, d, s.ds[d])
  }

  ghost predicate Inv(s: State) {
    DeliveriesOk(s) && IdleOk(s.conns, s.idle) && WithinLimits(s.limits, s.idle)
  }

  // ---------------------------------------------------------------- preservation

  /** What a step by `d` may do to connections: its own and pooled ones change hands, any other
      can at most have its socket closed. */
  predicate Touches(conns: map<ConnId, Conn>, d: DeliveryId, conns': map<ConnId, Conn>) {
    forall c :: c in conns ==>
      c in conns' &&
      (conns'[c] == conns[c] || conns'[c] == conns[c].(open := false) ||
       conns[c].at == HeldBy(d) || conns[c].at.InPool?)
  }

  lemma OthersOk(s: State, d: DeliveryId, s': State)
    requires DeliveriesOk(s) && Touches(s.conns, d, s'.conns)
    requires s'.ds.Keys == s.ds.Keys + {d} && forall e :: e in s.ds && e != d ==> s'.ds[e] == s.ds[e]
    requires AttemptOk(s'.conns, d, s'.ds[d])
    ensures DeliveriesOk(s')
  {
    forall e | e in s'.ds && e != d ensures AttemptOk(s'.conns, e, s'.ds[e]) {
      assert AttemptOk(s.conns, e, s.ds[e]);
    }
  }

  /** Pooled connections keep their place and session. */
  predicate PoolUntouched(conns: map<ConnId, Conn>, conns': map<ConnId, Conn>) {
    forall c :: c in conns && conns[c].at.InPool? ==>
      c in conns' && conns'[c].(open := conns[c].open) == conns[c]
  }

  lemma IdleStays(conns: map<ConnId, Conn>, idle: Idle, conns': map<ConnId, Conn>)
    requires IdleOk(conns, idle) && PoolUntouched(conns, conns')
    ensures IdleOk(conns', idle)
  {
    forall k | k in idle ensures ListFiled(conns', k, idle[k]) {
      assert ListFiled(conns, k, idle[k]);
      forall i | 0 <= i < |idle[k]| ensures EntryOk(conns', k, idle[k][i].conn) {
        assert EntryOk(conns, k, idle[k][i].conn);
      }
    }
  }

  lemma OnOk(s: State, d: DeliveryId, x: Attempt)
    requires Inv(s) && AttemptOk(s.conns, d, x)
    ensures Inv(On(s, d, x))
  {
    OthersOk(s, d, On(s, d, x));
  }

  /** The delivery may change a connection it holds or has just opened, and close any socket. */
  lemma WithOk(s: State, d: DeliveryId, x: Attempt, c: ConnId, n: Conn)
    requires Inv(s) && AttemptOk(s.conns[c := n], d, x)
    requires c in s.conns ==> s.conns[c].at == HeldBy(d) || n == s.conns[c].(open := false)
    ensures Inv(With(s, d, x, c, n))
  {
    OthersOk(s, d, With(s, d, x, c, n));
    IdleStays(s.conns, s.idle, s.conns[c := n]);
  }

  lemma GiveUpOk(s: State, d: DeliveryId, p: Phase)
    requires Inv(s) && d in s.ds && Holds(s, s.ds[d])
    requires Shape(s.ds[d].(held := None, phase := p))
    ensures Inv(GiveUp(s, d, s.ds[d], p))
  {
    var x := s.ds[d];
    assert AttemptOk(s.conns, d, x);
    WithOk(s, d, x.(held := None, phase := p), x.held.value, Held(s, x).(open := false, at := Retired));
  }

  lemma BorrowMoveOk(s: State, d: DeliveryId, x: Attempt, m: Move)
    requires Inv(s) && d in s.ds && x == s.ds[d] && AttemptOk(s.conns, d, x) && MoveEnabled(s, x, m)
    requires m.DropStale? || m.Prepare? || m.Probe?
    ensures Inv(MoveDo(s, d, x, m))
  {
    match m
    case DropStale => GiveUpOk(s, d, Borrowing);
    case Prepare => OnOk(s, d, x.(guard := x.held, phase := Probing(x.phase.p)));
    case Probe(ok) =>
      if ok { OnOk(s, d, x.(phase := Ready(x.phase.p.messages))); } else { GiveUpOk(s, d, Borrowing); }
  }

  lemma DialMoveOk(s: State, d: DeliveryId, x: Attempt, m: Move)
    requires Inv(s) && d in s.ds && x == s.ds[d] && AttemptOk(s.conns, d, x) && MoveEnabled(s, x, m)
    requires m.Dial? || m.DialFails? || m.Arm?
    ensures Inv(MoveDo(s, d, x, m))
  {
    match m
    case Dial(c) =>
      WithOk(s, d, x.(held := Some(c), phase := Dialled(x.phase.plain)), c,
             Conn(true, Session(x.relay.addr, "", false, x.local), x.relay, HeldBy(d)));
    case DialFails => OnOk(s, d, x.(phase := Ending(false, 0)));
    case Arm => OnOk(s, d, x.(guard := x.held, phase := Guarded(x.phase.plain)));
  }

  lemma StartTlsOk(s: State, d: DeliveryId, x: Attempt, ok: bool)
    requires Inv(s) && d in s.ds && x == s.ds[d] && AttemptOk(s.conns, d, x) && MoveEnabled(s, x, StartTls(ok))
    ensures Inv(MoveDo(s, d, x, StartTls(ok)))
  {
    if ok {
      WithOk(s, d, x.(phase := Secured), x.held.value,
             Held(s, x).(sess := Held(s, x).sess.(encrypted := true)));
    } else {
      GiveUpOk(s, d, if x.relay.policy.Required? then Ending(false, 0) else Dialling(true));
    }
  }

  lemma AuthenticateOk(s: State, d: DeliveryId, x: Attempt, ok: bool)
    requires Inv(s) && d in s.ds && x == s.ds[d] && AttemptOk(s.conns, d, x) && MoveEnabled(s, x, Authenticate(ok))
    ensures Inv(MoveDo(s, d, x, Authenticate(ok)))
  {
    if x.relay.user == "" {
      OnOk(s, d, x.(phase := Ready(0)));
    } else if ok {
      WithOk(s, d, x.(phase := Ready(0)), x.held.value,
             Held(s, x).(sess := Held(s, x).sess.(user := x.relay.user)));
    } else {
      GiveUpOk(s, d, Ending(false, 0));
    }
  }

  lemma SessionMoveOk(s: State, d: DeliveryId, x: Attempt, m: Move)
    requires Inv(s) && d in s.ds && x == s.ds[d] && AttemptOk(s.conns, d, x) && MoveEnabled(s, x, m)
    requires m.StartTls? || m.Hello? || m.Authenticate?
    ensures Inv(MoveDo(s, d, x, m))
  {
    match m
    case StartTls(ok) => StartTlsOk(s, d, x, ok);
    case Hello(ok) =>
      if ok { OnOk(s, d, x.(phase := Greeted)); } else { GiveUpOk(s, d, Ending(false, 0)); }
    case Authenticate(ok) => AuthenticateOk(s, d, x, ok);
  }

  lemma SendOk(s: State, d: DeliveryId, x: Attempt, asked: seq<string>, replies: Transaction.Relay)
    requires Inv(s) && d in s.ds && x == s.ds[d] && AttemptOk(s.conns, d, x) && x.phase.Ready?
    ensures Inv(MoveDo(s, d, x, Send(asked, replies)))
  {
    OnOk(s, d, x.(phase := Ending(Transaction.Reusable(asked, replies), x.phase.messages + 1)));
  }

  lemma StopOk(s: State, d: DeliveryId, x: Attempt)
    requires Inv(s) && d in s.ds && x == s.ds[d] && AttemptOk(s.conns, d, x) && x.phase.Ending?
    ensures Inv(MoveDo(s, d, x, Stop))
  {
    OnOk(s, d, x.(phase := Stopped(x.phase.poolable, x.phase.messages),
                  callback := if x.callback.Waiting? then Spent else x.callback));
  }

  lemma ClearOk(s: State, d: DeliveryId, x: Attempt)
    requires Inv(s) && d in s.ds && x == s.ds[d] && AttemptOk(s.conns, d, x) && x.phase.Stopped?
    ensures Inv(MoveDo(s, d, x, Clear))
  {
    OnOk(s, d, x.(guard := None, phase := Settling(x.phase.poolable, x.phase.messages)));
  }

  lemma EndMoveOk(s: State, d: DeliveryId, x: Attempt, m: Move)
    requires Inv(s) && d in s.ds && x == s.ds[d] && AttemptOk(s.conns, d, x) && MoveEnabled(s, x, m)
    requires m.Send? || m.Stop? || m.Clear?
    ensures Inv(MoveDo(s, d, x, m))
  {
    match m
    case Send(asked, replies) => SendOk(s, d, x, asked, replies);
    case Stop => StopOk(s, d, x);
    case Clear => ClearOk(s, d, x);
  }

  lemma CancelOk(s: State, d: DeliveryId, x: Attempt)
    requires Inv(s) && d in s.ds && x == s.ds[d] && AttemptOk(s.conns, d, x) && x.callback.Waiting?
    ensures Inv(MoveDo(s, d, x, Cancel))
  {
    OnOk(s, d, x.(callback := Started));
  }

  lemma FireOk(s: State, d: DeliveryId, x: Attempt)
    requires Inv(s) && d in s.ds && x == s.ds[d] && AttemptOk(s.conns, d, x) && MoveEnabled(s, x, FireClose)
    ensures Inv(MoveDo(s, d, x, FireClose))
  {
    if x.guard.None? {
      OnOk(s, d, x.(callback := Spent));
    } else {
      WithOk(s, d, x.(callback := Spent), x.guard.value, s.conns[x.guard.value].(open := false));
    }
  }

  lemma TakeKeepsInv(s: State, d: DeliveryId)
    requires Inv(s) && d in s.ds && s.ds[d].phase.Borrowing?
    ensures Inv(DoTake(s, d, s.ds[d]))
  {
    var x := s.ds[d];
    assert AttemptOk(s.conns, d, x);
    if At(s.idle, x.PoolKeyOf()) == [] {
      OnOk(s, d, x.(phase := FirstDial(x)));
    } else {
      TakeOne(s, d, x, x.PoolKeyOf());
    }
  }

  lemma TakeOne(s: State, d: DeliveryId, x: Attempt, key: string)
    requires Inv(s) && d in s.ds && x == s.ds[d] && x.phase.Borrowing? && key == x.PoolKeyOf()
    requires At(s.idle, key) != []
    ensures Inv(DoTake(s, d, x))
  {
    var cs := At(s.idle, key);
    var c := cs[|cs| - 1].conn;
    var s' := DoTake(s, d, x);
    assert AttemptOk(s.conns, d, x);
    assert ListFiled(s.conns, key, cs) && EntryOk(s.conns, key, c);
    OthersOk(s, d, s');
    TakenKeepsLimits(s.limits, s.idle, key);
    TakeFiled(s.conns, s.idle, key, s'.conns);
  }

  lemma TakeFiled(conns: map<ConnId, Conn>, idle: Idle, key: string, conns': map<ConnId, Conn>)
    requires IdleOk(conns, idle) && At(idle, key) != []
    requires conns'.Keys == conns.Keys
    requires forall c :: c in conns && c != idle[key][|idle[key]| - 1].conn ==> conns'[c] == conns[c]
    ensures IdleOk(conns', Taken(idle, key))
  {
    var idle' := Taken(idle, key);
    var n := |idle[key]| - 1;
    assert ListFiled(conns, key, idle[key]);
    assert EntryOk(conns, key, idle[key][n].conn);
    forall k | k in idle' ensures ListFiled(conns', k, idle'[k]) {
      assert ListFiled(conns, k, idle[k]);
      forall i | 0 <= i < |idle'[k]| ensures EntryOk(conns', k, idle'[k][i].conn) {
        assert EntryOk(conns, k, idle[k][i].conn);
      }
    }
  }

  lemma SettleKeepsInv(s: State, d: DeliveryId)
    requires Inv(s) && d in s.ds && MoveEnabled(s, s.ds[d], Settle)
    ensures Inv(DoSettle(s, d, s.ds[d]))
  {
    var x := s.ds[d];
    var key := x.PoolKeyOf();
    assert AttemptOk(s.conns, d, x);
    if x.held.None? {
      OnOk(s, d, x.(phase := Over));
    } else if x.pooling && x.phase.poolable && Accepts(s.limits, s.idle, key, x.phase.messages) {
      KeepKeepsInv(s, d, x, Pooled(x.held.value, x.phase.messages, s.now));
    } else {
      GiveUpOk(s, d, Over);
    }
  }

  lemma KeptDeliveries(s: State, d: DeliveryId, x: Attempt, p: Pooled)
    requires DeliveriesOk(s) && d in s.ds && x == s.ds[d] && AttemptOk(s.conns, d, x) && Holds(s, x)
    requires x.guard.None?
    ensures DeliveriesOk(Keep(s, d, x, p))
  {
    OthersOk(s, d, Keep(s, d, x, p));
  }

  lemma KeepKeepsInv(s: State, d: DeliveryId, x: Attempt, p: Pooled)
    requires Inv(s) && d in s.ds && x == s.ds[d] && AttemptOk(s.conns, d, x) && x.phase.Settling? && Holds(s, x)
    requires p.conn == x.held.value && Accepts(s.limits, s.idle, x.PoolKeyOf(), p.messages)
    ensures Inv(Keep(s, d, x, p))
  {
    KeptDeliveries(s, d, x, p);
    OfferedKeepsLimits(s.limits, s.idle, x.PoolKeyOf(), p);
    PutFiled(s.conns, s.idle, x.PoolKeyOf(), p, Keep(s, d, x, p).conns);
  }

  lemma ListStays(conns: map<ConnId, Conn>, k: string, cs: seq<Pooled>, c: ConnId, conns': map<ConnId, Conn>)
    requires ListFiled(conns, k, cs) && c in conns && !conns[c].at.InPool? && conns'.Keys == conns.Keys
    requires forall d :: d in conns && d != c ==> conns'[d] == conns[d]
    ensures ListFiled(conns', k, cs) && forall i :: 0 <= i < |cs| ==> cs[i].conn != c
  {
    forall i | 0 <= i < |cs| ensures EntryOk(conns', k, cs[i].conn) && cs[i].conn != c {
      assert EntryOk(conns, k, cs[i].conn);
    }
  }

  lemma OneMoreFiled(conns: map<ConnId, Conn>, k: string, cs: seq<Pooled>, p: Pooled)
    requires ListFiled(conns, k, cs) && EntryOk(conns, k, p.conn)
    requires forall i :: 0 <= i < |cs| ==> cs[i].conn != p.conn
    ensures ListFiled(conns, k, cs + [p])
  {
  }

  lemma PutFiled(conns: map<ConnId, Conn>, idle: Idle, key: string, p: Pooled, conns': map<ConnId, Conn>)
    requires IdleOk(conns, idle) && p.conn in conns && !conns[p.conn].at.InPool?
    requires conns'.Keys == conns.Keys
    requires forall c :: c in conns && c != p.conn ==> conns'[c] == conns[c]
    requires EntryOk(conns', key, p.conn)
    ensures IdleOk(conns', idle[key := At(idle, key) + [p]])
  {
    var idle' := idle[key := At(idle, key) + [p]];
    forall k | k in idle ensures ListFiled(conns', k, idle[k]) { ListStays(conns, k, idle[k], p.conn, conns'); }
    if key in idle { ListStays(conns, key, idle[key], p.conn, conns'); }
    OneMoreFiled(conns', key, At(idle, key), p);
    forall k | k in idle' ensures ListFiled(conns', k, idle'[k]) { }
  }

  lemma MoveKeepsInv(s: State, d: DeliveryId, m: Move)
    requires Inv(s) && d in s.ds && MoveEnabled(s, s.ds[d], m)
    ensures Inv(MoveDo(s, d, s.ds[d], m))
  {
    var x := s.ds[d];
    assert AttemptOk(s.conns, d, x);
    if m.Take? {
      TakeKeepsInv(s, d);
    } else if m.Settle? {
      SettleKeepsInv(s, d);
    } else if m.DropStale? || m.Prepare? || m.Probe? {
      BorrowMoveOk(s, d, x, m);
    } else if m.Dial? || m.DialFails? || m.Arm? {
      DialMoveOk(s, d, x, m);
    } else if m.StartTls? || m.Hello? || m.Authenticate? {
      SessionMoveOk(s, d, x, m);
    } else if m.Send? || m.Stop? || m.Clear? {
      EndMoveOk(s, d, x, m);
    } else if m.Cancel? {
      CancelOk(s, d, x);
    } else {
      FireOk(s, d, x);
    }
  }

  ghost predicate Distinct(cs: seq<Pooled>) {
    forall i, j :: 0 <= i < j < |cs| ==> cs[i].conn != cs[j].conn
  }

  lemma {:induction false} FreshDistinct(cs: seq<Pooled>, cutoff: int)
    requires Distinct(cs)
    ensures Distinct(Fresh(cs, cutoff))
  {
    if cs != [] {
      var rest := cs[..|cs| - 1];
      FreshDistinct(rest, cutoff);
      FreshWithin(rest, cutoff);
      forall p | p in Fresh(rest, cutoff) ensures p.conn != cs[|cs| - 1].conn {
        var i :| 0 <= i < |rest| && rest[i] == p;
      }
    }
  }

  /** Connections leaving the pool behind the deliveries' backs: the sweep and the shutdown. */
  lemma EvictKeepsInv(s: State, idle': Idle)
    requires Inv(s) && WithinLimits(s.limits, idle')
    requires forall k :: k in idle' ==> k in s.idle && Distinct(idle'[k])
    requires forall k, p :: k in idle' && p in idle'[k] ==> p in s.idle[k]
    ensures Inv(Shrunk(s, idle'))
  {
    var conns' := Evict(s.conns, idle');
    forall d | d in s.ds ensures AttemptOk(conns', d, s.ds[d]) {
      assert AttemptOk(s.conns, d, s.ds[d]);
    }
    forall k | k in idle' ensures ListFiled(conns', k, idle'[k]) {
      assert ListFiled(s.conns, k, s.idle[k]);
      forall i | 0 <= i < |idle'[k]| ensures EntryOk(conns', k, idle'[k][i].conn) {
        StaysFiled(s.conns, s.idle, idle', k, i);
      }
    }
  }

  lemma StaysFiled(conns: map<ConnId, Conn>, idle: Idle, idle': Idle, k: string, i: nat)
    requires k in idle && ListFiled(conns, k, idle[k])
    requires k in idle' && i < |idle'[k]| && idle'[k][i] in idle[k]
    ensures EntryOk(Evict(conns, idle'), k, idle'[k][i].conn)
  {
    var j :| 0 <= j < |idle[k]| && idle[k][j] == idle'[k][i];
    assert EntryOk(conns, k, idle[k][j].conn);
    assert Contains(At(idle', k), idle'[k][i].conn);
  }

  lemma SweptFiled(conns: map<ConnId, Conn>, idle: Idle, cutoff: int, k: string)
    requires IdleOk(conns, idle) && k in Swept(idle, cutoff)
    ensures k in idle && Distinct(Swept(idle, cutoff)[k])
    ensures forall p :: p in Swept(idle, cutoff)[k] ==> p in idle[k]
  {
    assert ListFiled(conns, k, idle[k]);
    FreshDistinct(idle[k], cutoff);
    FreshWithin(idle[k], cutoff);
  }

  lemma ReapKeepsInv(s: State, s': State, cutoff: int)
    requires Inv(s) && s' == Shrunk(s, Swept(s.idle, cutoff))
    ensures Inv(s')
  {
    var idle' := Swept(s.idle, cutoff);
    SweptKeepsLimits(s.limits, s.idle, cutoff);
    forall k | k in idle'
      ensures k in s.idle && Distinct(idle'[k]) && forall p :: p in idle'[k] ==> p in s.idle[k]
    {
      SweptFiled(s.conns, s.idle, cutoff, k);
    }
    EvictKeepsInv(s, idle');
  }

  lemma StartKeepsInv(s: State, d: DeliveryId, relay: Relay, pooling: bool)
    requires Inv(s) && Enabled(s, Start(d, relay, pooling))
    ensures Inv(Do(s, Start(d, relay, pooling)))
  {
    OnOk(s, d, Begun(s, relay, pooling));
  }

  lemma RestKeepsInv(s: State, a: Action)
    requires Inv(s) && Enabled(s, a) && (a.CloseRetired? || a.Tick?)
    ensures Inv(Do(s, a))
  {
    if a.CloseRetired? { RetiredKeepsInv(s, a.c); }
  }

  lemma CloseStep(s: State)
    requires Inv(s)
    ensures Inv(Do(s, ClosePool))
  {
    EvictKeepsInv(s, map[]);
  }

  /** A sweep, spelt out. */
  lemma ReapIs(s: State, cutoff: int)
    requires Enabled(s, Reap) && cutoff == s.now - s.limits.idleTimeout
    ensures Do(s, Reap) == Shrunk(s, Swept(s.idle, cutoff))
  {
  }

  lemma StepKeepsInv(s: State, a: Action, s': State)
    requires Inv(s) && Enabled(s, a) && s' == Do(s, a)
    ensures Inv(s')
  {
    match a
    case Start(d, relay, pooling) => StartKeepsInv(s, d, relay, pooling);
    case Act(d, m) => MoveKeepsInv(s, d, m);
    case Reap =>
      var cutoff := s.now - s.limits.idleTimeout;
      ReapIs(s, cutoff);
      ReapKeepsInv(s, s', cutoff);
    case ClosePool => CloseStep(s);
    case CloseRetired(_) => RestKeepsInv(s, a);
    case Tick(_) => RestKeepsInv(s, a);
  }

  lemma RetiredKeepsInv(s: State, c: ConnId)
    requires Inv(s) && c in s.conns && s.conns[c].at.Retired?
    ensures Inv(s.(conns := s.conns[c := s.conns[c].(open := false)]))
  {
    var conns' := s.conns[c := s.conns[c].(open := false)];
    forall d | d in s.ds ensures AttemptOk(conns', d, s.ds[d]) {
      assert AttemptOk(s.conns, d, s.ds[d]);
    }
    IdleStays(s.conns, s.idle, conns');
  }

  // ---------------------------------------------------------------- whole runs

  lemma {:induction false} RunInv(ss: seq<State>, t: seq<Action>, k: nat)
    requires IsRun(ss, t) && k <= |t|
    ensures Inv(ss[k])
  {
    if k > 0 {
      RunInv(ss, t, k - 1);
      assert StepAt(ss, t, k - 1);
      StepKeepsInv(ss[k - 1], t[k - 1], ss[k]);
    }
  }

  predicate Ours(s: State, x: Attempt) { x.relay in s.relays && x.local == s.local }

  /** Every delivery is for a relay of the process, and every connection was made for one. */
  ghost predicate FromTable(s: State) {
    (forall d :: d in s.ds ==> Ours(s, s.ds[d])) &&
    (forall c :: c in s.conns ==> s.conns[c].made in s.relays && s.conns[c].sess.local == s.local)
  }

  predicate SameTable(s: State, s': State) { s'.relays == s.relays && s'.local == s.local }

  lemma WithKeepsTable(s: State, d: DeliveryId, x: Attempt, c: ConnId, n: Conn)
    requires FromTable(s) && Ours(s, x) && n.made in s.relays && n.sess.local == s.local
    ensures FromTable(With(s, d, x, c, n)) && SameTable(s, With(s, d, x, c, n))
  {
  }

  lemma TakeKeepsTable(s: State, d: DeliveryId, x: Attempt)
    requires FromTable(s) && Ours(s, x)
    ensures FromTable(DoTake(s, d, x)) && SameTable(s, DoTake(s, d, x))
  {
  }

  lemma SettleKeepsTable(s: State, d: DeliveryId, x: Attempt)
    requires FromTable(s) && Ours(s, x) && MoveEnabled(s, x, Settle)
    ensures FromTable(DoSettle(s, d, x)) && SameTable(s, DoSettle(s, d, x))
  {
  }

  lemma GiveUpKeepsTable(s: State, d: DeliveryId, x: Attempt, p: Phase)
    requires FromTable(s) && Ours(s, x) && Holds(s, x)
    ensures FromTable(GiveUp(s, d, x, p)) && SameTable(s, GiveUp(s, d, x, p))
  {
  }

  lemma SessionKeepsTable(s: State, d: DeliveryId, x: Attempt, m: Move)
    requires FromTable(s) && d in s.ds && x == s.ds[d] && MoveEnabled(s, x, m)
    requires m.StartTls? || m.Hello? || m.Authenticate?
    ensures FromTable(MoveDo(s, d, x, m)) && SameTable(s, MoveDo(s, d, x, m))
  {
  }

  lemma ProbeKeepsTable(s: State, d: DeliveryId, x: Attempt, m: Move)
    requires FromTable(s) && d in s.ds && x == s.ds[d] && MoveEnabled(s, x, m)
    requires m.Probe? || m.FireClose?
    ensures FromTable(MoveDo(s, d, x, m)) && SameTable(s, MoveDo(s, d, x, m))
  {
  }

  lemma QuietKeepsTable(s: State, d: DeliveryId, x: Attempt, m: Move)
    requires FromTable(s) && d in s.ds && x == s.ds[d] && MoveEnabled(s, x, m)
    requires m.Prepare? || m.DialFails? || m.Arm? || m.Send? || m.Stop? || m.Clear? || m.Cancel?
    ensures FromTable(MoveDo(s, d, x, m)) && SameTable(s, MoveDo(s, d, x, m))
  {
  }

  lemma MoveKeepsTable(s: State, d: DeliveryId, x: Attempt, m: Move)
    requires FromTable(s) && d in s.ds && x == s.ds[d] && MoveEnabled(s, x, m)
    ensures FromTable(MoveDo(s, d, x, m)) && SameTable(s, MoveDo(s, d, x, m))
  {
    match m
    case Take => TakeKeepsTable(s, d, x);
    case Settle => SettleKeepsTable(s, d, x);
    case Dial(c) =>
      WithKeepsTable(s, d, x.(held := Some(c), phase := Dialled(x.phase.plain)), c,
                     Conn(true, Session(x.relay.addr, "", false, x.local), x.relay, HeldBy(d)));
    case DropStale => GiveUpKeepsTable(s, d, x, Borrowing);
    case Probe(_) => ProbeKeepsTable(s, d, x, m);
    case StartTls(_) => SessionKeepsTable(s, d, x, m);
    case Hello(_) => SessionKeepsTable(s, d, x, m);
    case Authenticate(_) => SessionKeepsTable(s, d, x, m);
    case FireClose => ProbeKeepsTable(s, d, x, m);
    case _ => QuietKeepsTable(s, d, x, m);
  }

  lemma StepKeepsTable(s: State, a: Action, s': State)
    requires FromTable(s) && Enabled(s, a) && s' == Do(s, a)
    ensures FromTable(s') && SameTable(s, s')
  {
    match a
    case Start(d, relay, pooling) =>
    case Act(d, m) => MoveKeepsTable(s, d, s.ds[d], m);
    case Reap =>
    case ClosePool =>
    case CloseRetired(c) =>
    case Tick(dt) =>
  }

  lemma {:induction false} RunTable(ss: seq<State>, t: seq<Action>, k: nat)
    requires IsRun(ss, t) && k <= |t|
    ensures FromTable(ss[k]) && SameTable(ss[0], ss[k])
  {
    if k > 0 {
      RunTable(ss, t, k - 1);
      assert StepAt(ss, t, k - 1);
      StepKeepsTable(ss[k - 1], t[k - 1], ss[k]);
    }
  }

  ghost predicate IsIdle(s: State, c: ConnId) {
    exists k :: k in s.idle && Contains(s.idle[k], c)
  }

  /** A connection a delivery holds is held by no other and is not in the pool. */
  lemma HeldAlone(ss: seq<State>, t: seq<Action>, k: nat, d: DeliveryId, e: DeliveryId, c: ConnId)
    requires IsRun(ss, t) && k <= |t| && d in ss[k].ds && ss[k].ds[d].held == Some(c)
    ensures e in ss[k].ds && ss[k].ds[e].held == Some(c) ==> e == d
    ensures !IsIdle(ss[k], c)
  {
    var s := ss[k];
    RunInv(ss, t, k);
    assert AttemptOk(s.conns, d, s.ds[d]);
    if e in s.ds { assert AttemptOk(s.conns, e, s.ds[e]); }
    forall key | key in s.idle ensures !Contains(s.idle[key], c) {
      assert ListFiled(s.conns, key, s.idle[key]);
      forall i | 0 <= i < |s.idle[key]| ensures s.idle[key][i].conn != c {
        assert EntryOk(s.conns, key, s.idle[key][i].conn);
      }
    }
  }

  /** A connection is filed once: under one key, in one position. */
  lemma FiledOnce(ss: seq<State>, t: seq<Action>, n: nat, k: string, i: nat, k': string, i': nat)
    requires IsRun(ss, t) && n <= |t|
    requires k in ss[n].idle && i < |ss[n].idle[k]| && k' in ss[n].idle && i' < |ss[n].idle[k']|
    requires ss[n].idle[k][i].conn == ss[n].idle[k'][i'].conn
    ensures k == k' && i == i'
  {
    var s := ss[n];
    RunInv(ss, t, n);
    assert ListFiled(s.conns, k, s.idle[k]) && ListFiled(s.conns, k', s.idle[k']);
    assert EntryOk(s.conns, k, s.idle[k][i].conn) && EntryOk(s.conns, k', s.idle[k'][i'].conn);
  }

  /** When a cancellation closes an open socket, the cancelled delivery still holds it: it is not
      in the pool, and no other delivery holds it. */
  lemma GuardClosesItsOwn(ss: seq<State>, t: seq<Action>, k: nat, d: DeliveryId, e: DeliveryId)
    requires IsRun(ss, t) && k < |t| && t[k] == Act(d, FireClose)
    requires d in ss[k].ds && ss[k].ds[d].guard.Some?
    requires ss[k].ds[d].guard.value in ss[k].conns && ss[k].conns[ss[k].ds[d].guard.value].open
    ensures ss[k].ds[d].held == ss[k].ds[d].guard
    ensures !IsIdle(ss[k], ss[k].ds[d].guard.value)
    ensures e in ss[k].ds && e != d ==> ss[k].ds[e].held != ss[k].ds[d].guard
  {
    RunInv(ss, t, k);
    assert AttemptOk(ss[k].conns, d, ss[k].ds[d]);
    HeldAlone(ss, t, k, d, e, ss[k].ds[d].guard.value);
  }

  /** Every message, on a dialled or a reused session, goes on one that some relay of the process with the
      same key can make. */
  lemma SentOnMade(ss: seq<State>, t: seq<Action>, k: nat, d: DeliveryId) returns (y: Relay)
    requires IsRun(ss, t) && k < |t| && t[k].Act? && t[k].d == d && t[k].move.Send? && d in ss[k].ds
    ensures ss[k].ds[d].relay in ss[0].relays && Holds(ss[k], ss[k].ds[d])
    ensures y in ss[0].relays && Key(IdOf(y, ss[0].local)) == Key(IdOf(ss[k].ds[d].relay, ss[0].local))
    ensures Makes(y, ss[0].local, Held(ss[k], ss[k].ds[d]).sess)
  {
    RunInv(ss, t, k);
    assert StepAt(ss, t, k);
    RunTable(ss, t, k);
    y := ReadyOnMade(ss[k], d);
  }

  lemma ReadyOnMade(s: State, d: DeliveryId) returns (y: Relay)
    requires Inv(s) && FromTable(s) && d in s.ds && s.ds[d].phase.Ready?
    ensures s.ds[d].relay in s.relays && Holds(s, s.ds[d]) && y in s.relays
    ensures Key(IdOf(y, s.local)) == Key(IdOf(s.ds[d].relay, s.local)) && Makes(y, s.local, Held(s, s.ds[d]).sess)
  {
    assert AttemptOk(s.conns, d, s.ds[d]);
    y := Held(s, s.ds[d]).made;
  }

  lemma InitialRelays(ss: seq<State>, t: seq<Action>, y: Relay)
    requires IsRun(ss, t) && y in ss[0].relays
    ensures IsAddr(y.addr)
  {
  }

  /** So for a relay that is not ambiguous it leads to the relay, is authenticated as its user, and is encrypted
      when the relay requires it; and when the relay has a user and does not allow AUTH in the clear, unless
      another one with the same address, user and policy does. */
  lemma SentWhereItMay(ss: seq<State>, t: seq<Action>, k: nat, d: DeliveryId)
    requires IsRun(ss, t) && k < |t| && t[k].Act? && t[k].d == d && t[k].move.Send?
    requires d in ss[k].ds && !Ambiguous(ss[k].ds[d].Id())
    ensures Holds(ss[k], ss[k].ds[d])
    ensures var x, n := ss[k].ds[d].relay, Held(ss[k], ss[k].ds[d]).sess;
      && n.addr == x.addr && n.user == x.user && n.local == ss[0].local
      && (x.policy.Required? ==> n.encrypted)
      && (x.user != "" && !x.insecureAuth && !n.encrypted ==> x.(insecureAuth := true) in ss[0].relays)
  {
    var y := SentOnMade(ss, t, k, d);
    var x := ss[k].ds[d].relay;
    InitialRelays(ss, t, y);
    InitialRelays(ss, t, x);
    RunTable(ss, t, k);
    KeyIsItsOwn(IdOf(x, ss[0].local), IdOf(y, ss[0].local));
  }

  /** At every point of every run the pool is within its limits, and so are its keys. */
  lemma PoolStaysBounded(ss: seq<State>, t: seq<Action>, k: nat)
    requires IsRun(ss, t) && k <= |t|
    ensures WithinLimits(ss[k].limits, ss[k].idle)
    ensures ss[k].limits.maxTotal > 0 ==> |ss[k].idle| <= ss[k].limits.maxTotal
  {
    RunInv(ss, t, k);
    if ss[k].limits.maxTotal > 0 { KeysWithinTotal(ss[k].limits, ss[k].idle); }
  }
}
