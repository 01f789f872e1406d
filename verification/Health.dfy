/**
  What becomes of connections over whole runs of deliveries: which come into the pool, what the pool says of them,
  and what has been done on a session before a message goes on it.

  The invariants are about the actions that have been performed, recorded beside the run: no action depends on
  the record.
 */
module Health {
  import opened Options
  import opened PoolKey
  import opened Pool
  import opened Delivery
  import Transaction

  /** What was done on a connection: for every message sent on it, whether that left the session fit for another
      one, and the clock when a delivery last gave it up at its end. */
  datatype Rec = Rec(sends: seq<bool>, settled: int)

  type Log = map<ConnId, Rec>

  function Of(l: Log, c: ConnId): Rec { if c in l then l[c] else Rec([], 0) }

  ghost function Logged(s: State, a: Action, l: Log): Log {
    if a.Act? && a.d in s.ds && s.ds[a.d].held.Some? then
      var c := s.ds[a.d].held.value;
      match a.move
      case Send(asked, replies) => l[c := Of(l, c).(sends := Of(l, c).sends + [Transaction.Reusable(asked, replies)])]
      case Settle => l[c := Of(l, c).(settled := s.now)]
      case _ => l
    else l
  }

  /** The record of the first `k` actions. */
  ghost function History(ss: seq<State>, t: seq<Action>, k: nat): Log
    requires k <= |t| < |ss|
  {
    if k == 0 then map[] else Logged(ss[k - 1], t[k - 1], History(ss, t, k - 1))
  }

  // ---------------------------------------------------------------- places

  /** A connection is where it is said to be: with a delivery that holds it, or in the pool under that key. */
  predicate Placed(s: State, c: ConnId)
    requires c in s.conns
  {
    match s.conns[c].at
    case HeldBy(d) => d in s.ds && s.ds[d].held == Some(c)
    case InPool(k) => Contains(At(s.idle, k), c)
    case Retired => true
  }

  ghost predicate PlacesOk(s: State) { forall c :: c in s.conns ==> Placed(s, c) }

  lemma OnPlaces(s: State, d: DeliveryId, x: Attempt)
    requires PlacesOk(s) && (d in s.ds ==> x.held == s.ds[d].held)
    ensures PlacesOk(On(s, d, x))
  {
    forall c | c in s.conns ensures Placed(On(s, d, x), c) { assert Placed(s, c); }
  }

  /** The delivery goes on with `x`; `c` changes hands only between it and nobody. */
  lemma WithPlaces(s: State, d: DeliveryId, x: Attempt, c: ConnId, n: Conn)
    requires PlacesOk(s) && Placed(With(s, d, x, c, n), c)
    requires d in s.ds && (s.ds[d].held == x.held || s.ds[d].held == None || s.ds[d].held == Some(c))
    ensures PlacesOk(With(s, d, x, c, n))
  {
    var s' := With(s, d, x, c, n);
    forall e | e in s'.conns ensures Placed(s', e) {
      if e != c { assert Placed(s, e); }
    }
  }

  lemma GiveUpPlaces(s: State, d: DeliveryId, x: Attempt, p: Phase)
    requires PlacesOk(s) && d in s.ds && x == s.ds[d] && Holds(s, x)
    ensures PlacesOk(GiveUp(s, d, x, p))
  {
    WithPlaces(s, d, x.(held := None, phase := p), x.held.value, Held(s, x).(open := false, at := Retired));
  }

  lemma TakePlaces(s: State, d: DeliveryId, x: Attempt)
    requires Inv(s) && PlacesOk(s) && d in s.ds && x == s.ds[d] && x.phase.Borrowing?
    ensures PlacesOk(DoTake(s, d, x))
  {
    assert AttemptOk(s.conns, d, x);
    var key := x.PoolKeyOf();
    var cs := At(s.idle, key);
    if cs == [] {
      OnPlaces(s, d, x.(phase := FirstDial(x)));
    } else {
      assert ListFiled(s.conns, key, cs) && EntryOk(s.conns, key, cs[|cs| - 1].conn);
      TakenPlaces(s, d, x, cs[|cs| - 1], DoTake(s, d, x));
    }
  }

  lemma TakenPlaces(s: State, d: DeliveryId, x: Attempt, p: Pooled, s': State)
    requires PlacesOk(s) && d in s.ds && s.ds[d].held.None? && p.conn in s.conns
    requires At(s.idle, x.PoolKeyOf()) != [] && p == At(s.idle, x.PoolKeyOf())[|At(s.idle, x.PoolKeyOf())| - 1]
    requires s'.conns == s.conns[p.conn := s.conns[p.conn].(at := HeldBy(d))]
    requires s'.idle == Taken(s.idle, x.PoolKeyOf())
    requires s'.ds.Keys == s.ds.Keys && s'.ds[d].held == Some(p.conn) && s'.ds == s.ds[d := s'.ds[d]]
    ensures PlacesOk(s')
  {
    forall c | c in s'.conns ensures Placed(s', c) {
      assert Placed(s, c);
      if c != p.conn && s.conns[c].at.InPool? { StillContained(s.idle, x.PoolKeyOf(), s.conns[c].at.key, c); }
    }
  }

  lemma StillContained(idle: Idle, key: string, k: string, c: ConnId)
    requires At(idle, key) != [] && At(idle, key)[|At(idle, key)| - 1].conn != c && Contains(At(idle, k), c)
    ensures Contains(At(Taken(idle, key), k), c)
  {
    var i :| 0 <= i < |At(idle, k)| && At(idle, k)[i].conn == c;
    if k == key { assert At(Taken(idle, key), k) == At(idle, k)[..|At(idle, k)| - 1]; }
    assert At(Taken(idle, key), k)[i].conn == c;
  }

  lemma KeepPlaces(s: State, d: DeliveryId, x: Attempt, p: Pooled)
    requires PlacesOk(s) && d in s.ds && x == s.ds[d] && Holds(s, x) && p.conn == x.held.value
    requires Accepts(s.limits, s.idle, x.PoolKeyOf(), p.messages)
    ensures PlacesOk(Keep(s, d, x, p))
  {
    var s', key := Keep(s, d, x, p), x.PoolKeyOf();
    assert At(s'.idle, key) == At(s.idle, key) + [p];
    assert At(s'.idle, key)[|At(s.idle, key)|].conn == p.conn;
    forall c | c in s'.conns ensures Placed(s', c) {
      assert Placed(s, c);
      if c != p.conn && s.conns[c].at.InPool? && s.conns[c].at.key == key {
        var i :| 0 <= i < |At(s.idle, key)| && At(s.idle, key)[i].conn == c;
        assert At(s'.idle, key)[i].conn == c;
      }
    }
  }

  lemma SettlePlaces(s: State, d: DeliveryId, x: Attempt)
    requires PlacesOk(s) && d in s.ds && x == s.ds[d] && MoveEnabled(s, x, Settle)
    ensures PlacesOk(DoSettle(s, d, x))
  {
    if x.held.None? {
      OnPlaces(s, d, x.(phase := Over));
    } else if x.pooling && x.phase.poolable && Accepts(s.limits, s.idle, x.PoolKeyOf(), x.phase.messages) {
      KeepPlaces(s, d, x, Pooled(x.held.value, x.phase.messages, s.now));
    } else {
      GiveUpPlaces(s, d, x, Over);
    }
  }

  lemma ShrunkPlaces(s: State, idle': Idle)
    requires PlacesOk(s)
    ensures PlacesOk(Shrunk(s, idle'))
  {
    forall c | c in s.conns ensures Placed(Shrunk(s, idle'), c) { assert Placed(s, c); }
  }

  lemma SessionPlaces(s: State, d: DeliveryId, x: Attempt, m: Move)
    requires Inv(s) && PlacesOk(s) && d in s.ds && x == s.ds[d] && MoveEnabled(s, x, m)
    requires m.StartTls? || m.Authenticate?
    ensures PlacesOk(MoveDo(s, d, x, m))
  {
    assert AttemptOk(s.conns, d, x) && Placed(s, x.held.value);
    match m
    case StartTls(ok) =>
      if ok {
        WithPlaces(s, d, x.(phase := Secured), x.held.value, Held(s, x).(sess := Held(s, x).sess.(encrypted := true)));
      } else {
        GiveUpPlaces(s, d, x, if x.relay.policy.Required? then Ending(false, 0) else Dialling(true));
      }
    case Authenticate(ok) =>
      if x.relay.user == "" {
        OnPlaces(s, d, x.(phase := Ready(0)));
      } else if ok {
        WithPlaces(s, d, x.(phase := Ready(0)), x.held.value,
                   Held(s, x).(sess := Held(s, x).sess.(user := x.relay.user)));
      } else {
        GiveUpPlaces(s, d, x, Ending(false, 0));
      }
  }

  lemma DialPlaces(s: State, d: DeliveryId, x: Attempt, c: ConnId)
    requires Inv(s) && PlacesOk(s) && d in s.ds && x == s.ds[d] && MoveEnabled(s, x, Dial(c))
    ensures PlacesOk(MoveDo(s, d, x, Dial(c)))
  {
    assert AttemptOk(s.conns, d, x);
    WithPlaces(s, d, x.(held := Some(c), phase := Dialled(x.phase.plain)), c,
               Conn(true, Session(x.relay.addr, "", false, x.local), x.relay, HeldBy(d)));
  }

  lemma FirePlaces(s: State, d: DeliveryId, x: Attempt)
    requires PlacesOk(s) && d in s.ds && x == s.ds[d] && MoveEnabled(s, x, FireClose)
    ensures PlacesOk(MoveDo(s, d, x, FireClose))
  {
    if x.guard.None? {
      OnPlaces(s, d, x.(callback := Spent));
    } else {
      assert Placed(s, x.guard.value);
      WithPlaces(s, d, x.(callback := Spent), x.guard.value, s.conns[x.guard.value].(open := false));
    }
  }

  lemma QuietPlaces(s: State, d: DeliveryId, x: Attempt, m: Move)
    requires PlacesOk(s) && d in s.ds && x == s.ds[d] && MoveEnabled(s, x, m)
    requires m.Prepare? || m.DialFails? || m.Arm? || m.Send? || m.Stop? || m.Clear? || m.Cancel?
    ensures PlacesOk(MoveDo(s, d, x, m))
  {
    var x' := MoveDo(s, d, x, m).ds[d];
    assert x'.held == x.held && MoveDo(s, d, x, m) == On(s, d, x');
    OnPlaces(s, d, x');
  }

  lemma MovePlaces(s: State, d: DeliveryId, x: Attempt, m: Move)
    requires Inv(s) && PlacesOk(s) && d in s.ds && x == s.ds[d] && MoveEnabled(s, x, m)
    ensures PlacesOk(MoveDo(s, d, x, m))
  {
    match m
    case Take => TakePlaces(s, d, x);
    case DropStale => GiveUpPlaces(s, d, x, Borrowing);
    case Probe(ok) =>
      if ok { OnPlaces(s, d, x.(phase := Ready(x.phase.p.messages))); } else { GiveUpPlaces(s, d, x, Borrowing); }
    case Hello(ok) =>
      if ok { OnPlaces(s, d, x.(phase := Greeted)); } else { GiveUpPlaces(s, d, x, Ending(false, 0)); }
    case StartTls(_) => SessionPlaces(s, d, x, m);
    case Authenticate(_) => SessionPlaces(s, d, x, m);
    case Dial(c) => DialPlaces(s, d, x, c);
    case Settle => SettlePlaces(s, d, x);
    case FireClose => FirePlaces(s, d, x);
    case _ => QuietPlaces(s, d, x, m);
  }

  lemma StepPlaces(s: State, a: Action, s': State)
    requires Inv(s) && PlacesOk(s) && Enabled(s, a) && s' == Do(s, a)
    ensures PlacesOk(s')
  {
    if a.Start? {
      OnPlaces(s, a.d, Begun(s, a.relay, a.pooling));
    } else if a.Act? {
      MovePlaces(s, a.d, s.ds[a.d], a.move);
    } else if a.Reap? {
      ShrunkPlaces(s, s'.idle);
    } else if a.ClosePool? {
      ShrunkPlaces(s, s'.idle);
    } else {
      forall c | c in s'.conns ensures Placed(s', c) { assert Placed(s, c); }
    }
  }

  // ---------------------------------------------------------------- what sessions have been through

  predicate AllTrue(b: seq<bool>) { forall i :: 0 <= i < |b| ==> b[i] }

  /** Every message on it left it fit for another one; the pool has their number, and the time. */
  predicate Fit(p: Pooled, r: Rec) {
    r.sends != [] && AllTrue(r.sends) && p.messages == |r.sends| && p.usedAt == r.settled
  }

  /** The last message of several is over; all before it left the session fit. */
  predicate Done(poolable: bool, messages: int, sends: seq<bool>) {
    sends != [] && |sends| == messages && sends[|sends| - 1] == poolable && AllTrue(sends[..|sends| - 1])
  }

  /** What has been sent on the connection a delivery holds, by phase. */
  predicate Grade(x: Attempt, r: Rec)
    requires x.held.Some?
  {
    match x.phase
    case Dialled(_) => r.sends == []
    case Guarded(_) => r.sends == []
    case Secured => r.sends == []
    case Greeted => r.sends == []
    case Candidate(p) => p.conn == x.held.value && Fit(p, r)
    case Probing(p) => p.conn == x.held.value && Fit(p, r)
    case Ready(m) => AllTrue(r.sends) && |r.sends| == m
    case Ending(poolable, m) => Done(poolable, m, r.sends)
    case Stopped(poolable, m) => Done(poolable, m, r.sends)
    case Settling(poolable, m) => Done(poolable, m, r.sends)
    case Borrowing => false
    case Dialling(_) => false
    case Over => false
  }

  /** From before the first command to after the last one the guard watches the connection held. */
  predicate Watched(x: Attempt) {
    x.held.Some? && !x.phase.Dialled? && !x.phase.Candidate? && !x.phase.Settling? ==> x.guard == x.held
  }

  predicate Sound(x: Attempt, l: Log) {
    Watched(x) && (x.held.Some? ==> Grade(x, Of(l, x.held.value)))
  }

  predicate AllFit(cs: seq<Pooled>, l: Log) { forall i :: 0 <= i < |cs| ==> Fit(cs[i], Of(l, cs[i].conn)) }

  ghost predicate Healthy(s: State, l: Log) {
    (forall d :: d in s.ds ==> Sound(s.ds[d], l)) &&
    (forall k :: k in s.idle ==> AllFit(s.idle[k], l)) &&
    (forall c :: c in l ==> c in s.conns)
  }

  /** The delivery goes on, and at most the record of what it holds changes. */
  lemma OnHealthy(s: State, d: DeliveryId, s': State, l: Log, l': Log)
    requires Inv(s) && Healthy(s, l) && d in s'.ds
    requires s'.idle == s.idle && s.conns.Keys <= s'.conns.Keys && l'.Keys <= s'.conns.Keys
    requires s'.ds.Keys == s.ds.Keys + {d} && forall e :: e in s.ds && e != d ==> s'.ds[e] == s.ds[e]
    requires forall c :: c in s.conns && Of(l', c) != Of(l, c) ==> d in s.ds && s.ds[d].held == Some(c)
    requires Sound(s'.ds[d], l')
    ensures Healthy(s', l')
  {
    forall e | e in s'.ds ensures Sound(s'.ds[e], l') {
      if e != d { Others(s, d, e, l, l'); }
    }
    forall k | k in s'.idle ensures AllFit(s'.idle[k], l') { FitStays(s, d, k, l, l'); }
  }

  lemma Others(s: State, d: DeliveryId, e: DeliveryId, l: Log, l': Log)
    requires Inv(s) && Healthy(s, l) && e in s.ds && e != d
    requires forall c :: c in s.conns && Of(l', c) != Of(l, c) ==> d in s.ds && s.ds[d].held == Some(c)
    ensures Sound(s.ds[e], l')
  {
    assert Sound(s.ds[e], l) && AttemptOk(s.conns, e, s.ds[e]);
    if d in s.ds { assert AttemptOk(s.conns, d, s.ds[d]); }
  }

  lemma FitStays(s: State, d: DeliveryId, k: string, l: Log, l': Log)
    requires Inv(s) && Healthy(s, l) && k in s.idle
    requires forall c :: c in s.conns && Of(l', c) != Of(l, c) ==> d in s.ds && s.ds[d].held == Some(c)
    ensures AllFit(s.idle[k], l')
  {
    assert AllFit(s.idle[k], l) && ListFiled(s.conns, k, s.idle[k]);
    if d in s.ds { assert AttemptOk(s.conns, d, s.ds[d]); }
    forall i | 0 <= i < |s.idle[k]| ensures Fit(s.idle[k][i], Of(l', s.idle[k][i].conn)) {
      assert EntryOk(s.conns, k, s.idle[k][i].conn);
    }
  }

  lemma ArmHealthy(s: State, d: DeliveryId, x: Attempt, m: Move, l: Log)
    requires Inv(s) && Healthy(s, l) && d in s.ds && x == s.ds[d] && MoveEnabled(s, x, m)
    requires m.Prepare? || m.DialFails? || m.Arm?
    ensures Healthy(MoveDo(s, d, x, m), l)
  {
    assert AttemptOk(s.conns, d, x) && Sound(x, l);
    OnHealthy(s, d, MoveDo(s, d, x, m), l, l);
  }

  lemma OnSound(s: State, d: DeliveryId, x: Attempt, l: Log)
    requires Inv(s) && Healthy(s, l) && Sound(x, l)
    ensures Healthy(On(s, d, x), l)
  {
    OnHealthy(s, d, On(s, d, x), l, l);
  }

  lemma EndHealthy(s: State, d: DeliveryId, x: Attempt, m: Move, l: Log)
    requires Inv(s) && Healthy(s, l) && d in s.ds && x == s.ds[d] && MoveEnabled(s, x, m)
    requires m.Stop? || m.Clear?
    ensures Healthy(MoveDo(s, d, x, m), l)
  {
    assert AttemptOk(s.conns, d, x) && Sound(x, l);
    if m.Stop? {
      OnSound(s, d, x.(phase := Stopped(x.phase.poolable, x.phase.messages),
                       callback := if x.callback.Waiting? then Spent else x.callback), l);
    } else {
      OnSound(s, d, x.(guard := None, phase := Settling(x.phase.poolable, x.phase.messages)), l);
    }
  }

  lemma CallbackHealthy(s: State, d: DeliveryId, x: Attempt, m: Move, l: Log)
    requires Inv(s) && Healthy(s, l) && d in s.ds && x == s.ds[d] && MoveEnabled(s, x, m)
    requires m.Cancel? || m.FireClose?
    ensures Healthy(MoveDo(s, d, x, m), l)
  {
    assert AttemptOk(s.conns, d, x) && Sound(x, l);
    OnHealthy(s, d, MoveDo(s, d, x, m), l, l);
  }

  lemma BorrowHealthy(s: State, d: DeliveryId, x: Attempt, m: Move, l: Log)
    requires Inv(s) && Healthy(s, l) && d in s.ds && x == s.ds[d] && MoveEnabled(s, x, m)
    requires m.DropStale? || m.Probe?
    ensures Healthy(MoveDo(s, d, x, m), l)
  {
    assert AttemptOk(s.conns, d, x) && Sound(x, l);
    OnHealthy(s, d, MoveDo(s, d, x, m), l, l);
  }

  lemma SessionHealthy(s: State, d: DeliveryId, x: Attempt, m: Move, l: Log)
    requires Inv(s) && Healthy(s, l) && d in s.ds && x == s.ds[d] && MoveEnabled(s, x, m)
    requires m.StartTls? || m.Hello? || m.Authenticate?
    ensures Healthy(MoveDo(s, d, x, m), l)
  {
    assert AttemptOk(s.conns, d, x) && Sound(x, l);
    OnHealthy(s, d, MoveDo(s, d, x, m), l, l);
  }

  lemma DialHealthy(s: State, d: DeliveryId, x: Attempt, c: ConnId, l: Log)
    requires Inv(s) && Healthy(s, l) && d in s.ds && x == s.ds[d] && MoveEnabled(s, x, Dial(c))
    ensures Healthy(MoveDo(s, d, x, Dial(c)), l)
  {
    assert AttemptOk(s.conns, d, x) && Sound(x, l) && c !in l;
    OnHealthy(s, d, MoveDo(s, d, x, Dial(c)), l, l);
  }

  lemma OneMoreSend(b: seq<bool>, last: bool)
    requires AllTrue(b)
    ensures Done(last, |b| + 1, b + [last])
  {
    assert (b + [last])[..|b|] == b;
  }

  /** The delivery goes on, and the record of what it holds becomes `r`. */
  lemma OnRecord(s: State, d: DeliveryId, x: Attempt, c: ConnId, r: Rec, l: Log)
    requires Inv(s) && Healthy(s, l) && d in s.ds && s.ds[d].held == Some(c) && x.held == Some(c) && c in s.conns
    requires Watched(x) && Grade(x, r)
    ensures Healthy(On(s, d, x), l[c := r])
  {
    OnHealthy(s, d, On(s, d, x), l, l[c := r]);
  }

  lemma SendGrades(x: Attempt, x': Attempt, r: Rec, r': Rec, poolable: bool)
    requires x.phase.Ready? && x.held.Some? && Watched(x) && Grade(x, r)
    requires x' == x.(phase := Ending(poolable, x.phase.messages + 1)) && r' == r.(sends := r.sends + [poolable])
    ensures Watched(x') && Grade(x', r')
  {
    OneMoreSend(r.sends, poolable);
  }

  lemma SentHealthy(s: State, d: DeliveryId, x: Attempt, x': Attempt, c: ConnId, poolable: bool, l: Log, r: Rec)
    requires Inv(s) && Healthy(s, l) && d in s.ds && x == s.ds[d] && x.phase.Ready? && Holds(s, x)
    requires c == x.held.value && x' == x.(phase := Ending(poolable, x.phase.messages + 1))
    requires r == Of(l, c).(sends := Of(l, c).sends + [poolable])
    ensures Healthy(On(s, d, x'), l[c := r])
  {
    assert Sound(x, l);
    SendGrades(x, x', Of(l, c), r, poolable);
    OnRecord(s, d, x', c, r, l);
  }

  lemma SendHealthy(s: State, d: DeliveryId, x: Attempt, asked: seq<string>, replies: Transaction.Relay, l: Log)
    requires Inv(s) && Healthy(s, l) && d in s.ds && x == s.ds[d] && x.phase.Ready?
    ensures Healthy(MoveDo(s, d, x, Send(asked, replies)), Logged(s, Act(d, Send(asked, replies)), l))
  {
    assert AttemptOk(s.conns, d, x);
    var poolable, c := Transaction.Reusable(asked, replies), x.held.value;
    SentHealthy(s, d, x, x.(phase := Ending(poolable, x.phase.messages + 1)), c, poolable, l,
                Of(l, c).(sends := Of(l, c).sends + [poolable]));
  }

  lemma TakeHealthy(s: State, d: DeliveryId, x: Attempt, l: Log)
    requires Inv(s) && Healthy(s, l) && d in s.ds && x == s.ds[d] && x.phase.Borrowing?
    ensures Healthy(DoTake(s, d, x), l)
  {
    var key := x.PoolKeyOf();
    var cs := At(s.idle, key);
    assert AttemptOk(s.conns, d, x) && Sound(x, l);
    if cs == [] {
      OnHealthy(s, d, On(s, d, x.(phase := FirstDial(x))), l, l);
    } else {
      assert AllFit(cs, l) && ListFiled(s.conns, key, cs) && EntryOk(s.conns, key, cs[|cs| - 1].conn);
      var s' := DoTake(s, d, x);
      forall k | k in s'.idle ensures AllFit(s'.idle[k], l) { assert AllFit(s.idle[k], l); }
    }
  }

  lemma SettleHealthy(s: State, d: DeliveryId, x: Attempt, l: Log)
    requires Inv(s) && Healthy(s, l) && d in s.ds && x == s.ds[d] && MoveEnabled(s, x, Settle)
    ensures Healthy(DoSettle(s, d, x), Logged(s, Act(d, Settle), l))
  {
    assert AttemptOk(s.conns, d, x) && Sound(x, l);
    var l' := Logged(s, Act(d, Settle), l);
    if x.held.None? {
      OnHealthy(s, d, On(s, d, x.(phase := Over)), l, l);
    } else if x.pooling && x.phase.poolable && Accepts(s.limits, s.idle, x.PoolKeyOf(), x.phase.messages) {
      KeepHealthy(s, d, x, l);
    } else {
      OnHealthy(s, d, GiveUp(s, d, x, Over), l, l');
    }
  }

  lemma KeptIsFit(s: State, d: DeliveryId, x: Attempt, l: Log)
    requires Inv(s) && Healthy(s, l) && d in s.ds && x == s.ds[d] && MoveEnabled(s, x, Settle) && x.held.Some?
    requires x.phase.poolable && Accepts(s.limits, s.idle, x.PoolKeyOf(), x.phase.messages)
    ensures Fit(Pooled(x.held.value, x.phase.messages, s.now), Of(Logged(s, Act(d, Settle), l), x.held.value))
  {
    assert AttemptOk(s.conns, d, x) && Sound(x, l);
    LastTrue(Of(l, x.held.value).sends);
  }

  lemma KeepHealthy(s: State, d: DeliveryId, x: Attempt, l: Log)
    requires Inv(s) && Healthy(s, l) && d in s.ds && x == s.ds[d] && MoveEnabled(s, x, Settle) && x.held.Some?
    requires x.phase.poolable && Accepts(s.limits, s.idle, x.PoolKeyOf(), x.phase.messages)
    ensures Healthy(Keep(s, d, x, Pooled(x.held.value, x.phase.messages, s.now)), Logged(s, Act(d, Settle), l))
  {
    var p, l' := Pooled(x.held.value, x.phase.messages, s.now), Logged(s, Act(d, Settle), l);
    OnHealthy(s, d, On(s, d, x.(held := None, phase := Over)), l, l');
    KeptIsFit(s, d, x, l);
    PutFit(s.idle, x.PoolKeyOf(), p, l', Keep(s, d, x, p).idle);
  }

  lemma PutFit(idle: Idle, key: string, p: Pooled, l: Log, idle': Idle)
    requires (forall k :: k in idle ==> AllFit(idle[k], l)) && Fit(p, Of(l, p.conn))
    requires idle' == idle[key := At(idle, key) + [p]]
    ensures forall k :: k in idle' ==> AllFit(idle'[k], l)
  {
    if key in idle { assert AllFit(idle[key], l); }
    OneMoreFit(At(idle, key), p, l);
  }

  lemma LastTrue(b: seq<bool>)
    requires b != [] && b[|b| - 1] && AllTrue(b[..|b| - 1])
    ensures AllTrue(b)
  {
    forall i | 0 <= i < |b| ensures b[i] { if i < |b| - 1 { assert b[..|b| - 1][i]; } }
  }

  lemma OneMoreFit(cs: seq<Pooled>, p: Pooled, l: Log)
    requires AllFit(cs, l) && Fit(p, Of(l, p.conn))
    ensures AllFit(cs + [p], l)
  {
  }

  lemma ShrunkHealthy(s: State, idle': Idle, l: Log)
    requires Healthy(s, l)
    requires forall k :: k in idle' ==> k in s.idle && forall p :: p in idle'[k] ==> p in s.idle[k]
    ensures Healthy(Shrunk(s, idle'), l)
  {
    forall k | k in idle' ensures AllFit(idle'[k], l) {
      assert AllFit(s.idle[k], l);
      forall i | 0 <= i < |idle'[k]| ensures Fit(idle'[k][i], Of(l, idle'[k][i].conn)) {
        assert idle'[k][i] in s.idle[k];
      }
    }
  }

  lemma MoveHealthy(s: State, d: DeliveryId, x: Attempt, m: Move, l: Log)
    requires Inv(s) && Healthy(s, l) && d in s.ds && x == s.ds[d] && MoveEnabled(s, x, m)
    ensures Healthy(MoveDo(s, d, x, m), Logged(s, Act(d, m), l))
  {
    if m.Take? {
      TakeHealthy(s, d, x, l);
    } else if m.Dial? {
      DialHealthy(s, d, x, m.c, l);
    } else if m.Send? {
      SendHealthy(s, d, x, m.asked, m.replies, l);
    } else if m.Settle? {
      SettleHealthy(s, d, x, l);
    } else if m.DropStale? || m.Probe? {
      BorrowHealthy(s, d, x, m, l);
    } else if m.StartTls? || m.Hello? || m.Authenticate? {
      SessionHealthy(s, d, x, m, l);
    } else if m.Prepare? || m.DialFails? || m.Arm? {
      ArmHealthy(s, d, x, m, l);
    } else if m.Stop? || m.Clear? {
      EndHealthy(s, d, x, m, l);
    } else {
      CallbackHealthy(s, d, x, m, l);
    }
  }

  lemma StepHealthy(s: State, a: Action, s': State, l: Log)
    requires Inv(s) && Healthy(s, l) && Enabled(s, a) && s' == Do(s, a)
    ensures Healthy(s', Logged(s, a, l))
  {
    if a.Start? {
      OnHealthy(s, a.d, s', l, l);
    } else if a.Act? {
      MoveHealthy(s, a.d, s.ds[a.d], a.move, l);
    } else if a.Reap? {
      forall k | k in s'.idle ensures k in s.idle && forall p :: p in s'.idle[k] ==> p in s.idle[k] {
        SweptFiled(s.conns, s.idle, s.now - s.limits.idleTimeout, k);
      }
      ShrunkHealthy(s, s'.idle, l);
    } else if a.ClosePool? {
      ShrunkHealthy(s, s'.idle, l);
    }
  }

  // ---------------------------------------------------------------- whole runs

  lemma {:induction false} RunHealthy(ss: seq<State>, t: seq<Action>, k: nat)
    requires IsRun(ss, t) && k <= |t|
    ensures Inv(ss[k]) && PlacesOk(ss[k]) && Healthy(ss[k], History(ss, t, k))
  {
    RunInv(ss, t, k);
    if k > 0 {
      RunHealthy(ss, t, k - 1);
      assert StepAt(ss, t, k - 1);
      StepPlaces(ss[k - 1], t[k - 1], ss[k]);
      StepHealthy(ss[k - 1], t[k - 1], ss[k], History(ss, t, k - 1));
    }
  }

  /** Whatever is in the pool has carried a message, every message it carried left its session fit for another one,
      and the pool has their number right and when the last of them was over. */
  lemma PooledIsFit(ss: seq<State>, t: seq<Action>, k: nat, key: string, i: nat)
    requires IsRun(ss, t) && k <= |t| && key in ss[k].idle && i < |ss[k].idle[key]|
    ensures var p := ss[k].idle[key][i];
      var r := Of(History(ss, t, k), p.conn);
      r.sends != [] && (forall j :: 0 <= j < |r.sends| ==> r.sends[j]) &&
      p.messages == |r.sends| && p.usedAt == r.settled
  {
    RunHealthy(ss, t, k);
    assert AllFit(ss[k].idle[key], History(ss, t, k));
  }

  /** A connection with no message behind it, or with one that left its session unfit, is under no key: a delivery
      holds it still, or it is retired. */
  lemma UnfitIsNeverPooled(ss: seq<State>, t: seq<Action>, k: nat, c: ConnId)
    requires IsRun(ss, t) && k <= |t| && c in ss[k].conns
    requires var sends := Of(History(ss, t, k), c).sends;
      sends == [] || exists j :: 0 <= j < |sends| && !sends[j]
    ensures !IsIdle(ss[k], c)
    ensures ss[k].conns[c].at.Retired? || exists d :: d in ss[k].ds && ss[k].ds[d].held == Some(c)
  {
    RunHealthy(ss, t, k);
    forall key | key in ss[k].idle ensures !Contains(ss[k].idle[key], c) {
      assert AllFit(ss[k].idle[key], History(ss, t, k));
    }
    IdleIffPlaced(ss, t, k, c);
    assert Placed(ss[k], c);
    if ss[k].conns[c].at.HeldBy? { assert ss[k].ds[ss[k].conns[c].at.d].held == Some(c); }
  }

  /** A message left the session fit, and the limits let the connection into the pool. */
  ghost predicate MayPool(s: State, x: Attempt, sends: seq<bool>) {
    x.pooling && sends != [] && sends[|sends| - 1]
    && !(s.limits.maxMessages > 0 && |sends| >= s.limits.maxMessages)
    && !(s.limits.maxTotal > 0 && Total(s.idle) >= s.limits.maxTotal)
    && |At(s.idle, x.PoolKeyOf())| < (if s.limits.maxPerRelay <= 0 then 2 else s.limits.maxPerRelay)
  }

  /** At the end of a delivery its connection goes to the pool exactly if there is one, the last message left the
      session fit, and the limits allow it; otherwise it is closed and retired. */
  lemma SettledIsPooledIff(ss: seq<State>, t: seq<Action>, k: nat, d: DeliveryId, c: ConnId)
    requires IsRun(ss, t) && k < |t| && t[k] == Act(d, Settle) && d in ss[k].ds && ss[k].ds[d].held == Some(c)
    ensures c in ss[k + 1].conns
    ensures IsIdle(ss[k + 1], c) <==> MayPool(ss[k], ss[k].ds[d], Of(History(ss, t, k), c).sends)
    ensures !IsIdle(ss[k + 1], c) ==> ss[k + 1].conns[c].at.Retired? && !ss[k + 1].conns[c].open
  {
    assert StepAt(ss, t, k);
    EndedWell(ss, t, k, d, c);
    SettleOutcome(ss[k], d, ss[k].ds[d], c);
    IdleIffPlaced(ss, t, k + 1, c);
  }

  lemma EndedWell(ss: seq<State>, t: seq<Action>, k: nat, d: DeliveryId, c: ConnId)
    requires IsRun(ss, t) && k <= |t| && d in ss[k].ds && ss[k].ds[d].phase.Settling? && ss[k].ds[d].held == Some(c)
    ensures Done(ss[k].ds[d].phase.poolable, ss[k].ds[d].phase.messages, Of(History(ss, t, k), c).sends)
  {
    RunHealthy(ss, t, k);
    assert Sound(ss[k].ds[d], History(ss, t, k));
  }

  lemma SettleOutcome(s: State, d: DeliveryId, x: Attempt, c: ConnId)
    requires d in s.ds && x == s.ds[d] && MoveEnabled(s, x, Settle) && x.held == Some(c)
    ensures c in DoSettle(s, d, x).conns
    ensures var n := DoSettle(s, d, x).conns[c];
      if x.pooling && x.phase.poolable && Accepts(s.limits, s.idle, x.PoolKeyOf(), x.phase.messages) then n.at.InPool?
      else n.at.Retired? && !n.open
  {
  }

  lemma IdleIffPlaced(ss: seq<State>, t: seq<Action>, k: nat, c: ConnId)
    requires IsRun(ss, t) && k <= |t| && c in ss[k].conns
    ensures IsIdle(ss[k], c) <==> ss[k].conns[c].at.InPool?
  {
    var s := ss[k];
    RunHealthy(ss, t, k);
    assert Placed(s, c);
    if s.conns[c].at.InPool? {
      assert Contains(s.idle[s.conns[c].at.key], c);
    } else {
      forall key | key in s.idle ensures !Contains(s.idle[key], c) {
        assert ListFiled(s.conns, key, s.idle[key]);
        forall i | 0 <= i < |s.idle[key]| ensures s.idle[key][i].conn != c {
          assert EntryOk(s.conns, key, s.idle[key][i].conn);
        }
      }
    }
  }

  lemma FreshHas(cs: seq<Pooled>, cutoff: int, p: Pooled)
    ensures p in Fresh(cs, cutoff) <==> p in cs && p.usedAt >= cutoff
  {
    FreshIsFilter(cs, cutoff);
    assert p in cs <==> p in multiset(cs);
    assert p in Fresh(cs, cutoff) <==> p in multiset(Fresh(cs, cutoff));
    assert p in Stale(cs, cutoff) <==> p in multiset(Stale(cs, cutoff));
  }

  /** A list keeps a connection exactly if its last delivery was over no earlier than the cutoff. */
  lemma SweptHas(cs: seq<Pooled>, cutoff: int, c: ConnId, l: Log)
    requires AllFit(cs, l)
    ensures Contains(Fresh(cs, cutoff), c) <==> Contains(cs, c) && Of(l, c).settled >= cutoff
  {
    if i :| 0 <= i < |Fresh(cs, cutoff)| && Fresh(cs, cutoff)[i].conn == c {
      var p := Fresh(cs, cutoff)[i];
      FreshHas(cs, cutoff, p);
      var j :| 0 <= j < |cs| && cs[j] == p;
      assert Fit(cs[j], Of(l, c));
    }
    if j :| 0 <= j < |cs| && cs[j].conn == c && Of(l, c).settled >= cutoff {
      assert Fit(cs[j], Of(l, c));
      FreshHas(cs, cutoff, cs[j]);
      var i :| 0 <= i < |Fresh(cs, cutoff)| && Fresh(cs, cutoff)[i] == cs[j];
      assert Fresh(cs, cutoff)[i].conn == c;
    }
  }

  /** The reaper takes out of the pool exactly what had been idle for longer than the limit, and retires it. */
  lemma ReapedIff(ss: seq<State>, t: seq<Action>, k: nat, c: ConnId)
    requires IsRun(ss, t) && k < |t| && t[k] == Reap && c in ss[k].conns && IsIdle(ss[k], c)
    ensures c in ss[k + 1].conns
    ensures IsIdle(ss[k + 1], c) <==>
              ss[k].now - Of(History(ss, t, k), c).settled <= ss[k].limits.idleTimeout
    ensures !IsIdle(ss[k + 1], c) ==> ss[k + 1].conns[c].at.Retired?
  {
    var s, s' := ss[k], ss[k + 1];
    IdleIffPlaced(ss, t, k, c);
    assert Enabled(s, Reap) && s' == Do(s, Reap) by { assert StepAt(ss, t, k); }
    assert PlacesOk(s) && Healthy(s, History(ss, t, k)) by { RunHealthy(ss, t, k); }
    ReapKeeps(s, s', c, History(ss, t, k));
    IdleIffPlaced(ss, t, k + 1, c);
  }

  lemma ReapKeeps(s: State, s': State, c: ConnId, l: Log)
    requires PlacesOk(s) && Healthy(s, l) && c in s.conns && s.conns[c].at.InPool?
    requires Enabled(s, Reap) && s' == Do(s, Reap)
    ensures c in s'.conns
    ensures s'.conns[c].at.InPool? <==> s.now - Of(l, c).settled <= s.limits.idleTimeout
    ensures !s'.conns[c].at.InPool? ==> s'.conns[c].at.Retired?
  {
    assert Placed(s, c);
    var key := s.conns[c].at.key;
    assert AllFit(s.idle[key], l);
    SweptHas(s.idle[key], s.now - s.limits.idleTimeout, c, l);
  }

  /** A delivery that is over has nothing left. */
  lemma OverHoldsNothing(ss: seq<State>, t: seq<Action>, k: nat, d: DeliveryId, c: ConnId)
    requires IsRun(ss, t) && k <= |t| && d in ss[k].ds && ss[k].ds[d].phase.Over? && c in ss[k].conns
    ensures ss[k].conns[c].at != HeldBy(d)
  {
    RunHealthy(ss, t, k);
    assert AttemptOk(ss[k].conns, d, ss[k].ds[d]) && Placed(ss[k], c);
  }

  /** A cancellation whose callback runs while the delivery talks to a relay closes that very connection. */
  lemma CancelCloses(ss: seq<State>, t: seq<Action>, k: nat, d: DeliveryId, c: ConnId)
    requires IsRun(ss, t) && k < |t| && t[k] == Act(d, FireClose) && d in ss[k].ds && ss[k].ds[d].held == Some(c)
    requires var p := ss[k].ds[d].phase; !p.Dialled? && !p.Candidate? && !p.Settling?
    ensures c in ss[k + 1].conns && !ss[k + 1].conns[c].open
  {
    RunHealthy(ss, t, k);
    assert StepAt(ss, t, k);
    assert Sound(ss[k].ds[d], History(ss, t, k));
  }

  // ---------------------------------------------------------------- before a message is sent

  /** How a delivery comes to be ready. */
  predicate Proves(a: Action, d: DeliveryId, user: string) {
    a.Act? && a.d == d && ((a.move.Probe? && a.move.ok) || (a.move.Authenticate? && (a.move.ok || user == "")))
  }

  lemma BecomesReady(s: State, a: Action, s': State, d: DeliveryId)
    requires Inv(s) && Enabled(s, a) && s' == Do(s, a) && d in s'.ds && s'.ds[d].phase.Ready?
    ensures d in s.ds && s'.ds[d].held == s.ds[d].held && s'.ds[d].relay == s.ds[d].relay
    ensures s.ds[d].phase == s'.ds[d].phase || Proves(a, d, s.ds[d].relay.user)
  {
    if a.Act? && a.d == d { ReadyMove(s, d, s.ds[d], a.move); } else if a.Act? { OtherMove(s, a.d, a.move, d); }
  }

  lemma ReadyMove(s: State, d: DeliveryId, x: Attempt, m: Move)
    requires d in s.ds && x == s.ds[d] && MoveEnabled(s, x, m) && MoveDo(s, d, x, m).ds[d].phase.Ready?
    ensures var x' := MoveDo(s, d, x, m).ds[d];
      x'.held == x.held && x'.relay == x.relay && (x.phase == x'.phase || Proves(Act(d, m), d, x.relay.user))
  {
    match m
    case Take =>
    case Probe(_) =>
    case Authenticate(_) =>
    case Cancel =>
    case FireClose =>
    case _ =>
  }

  lemma OtherMove(s: State, e: DeliveryId, m: Move, d: DeliveryId)
    requires e in s.ds && MoveEnabled(s, s.ds[e], m) && d != e
    ensures d in MoveDo(s, e, s.ds[e], m).ds ==> d in s.ds && MoveDo(s, e, s.ds[e], m).ds[d] == s.ds[d]
  {
  }

  /** No message goes on a session that was not proved first: by a probe of this very delivery that was answered, or
      by AUTH that succeeded where there is a user. */
  lemma {:induction false} SentOnProved(ss: seq<State>, t: seq<Action>, k: nat, d: DeliveryId) returns (j: nat)
    requires IsRun(ss, t) && k <= |t| && d in ss[k].ds && ss[k].ds[d].phase.Ready?
    ensures j < k && d in ss[j].ds && ss[j].ds[d].held == ss[k].ds[d].held && ss[j].ds[d].relay == ss[k].ds[d].relay
    ensures Proves(t[j], d, ss[k].ds[d].relay.user)
  {
    assert k > 0;
    RunInv(ss, t, k - 1);
    assert StepAt(ss, t, k - 1);
    BecomesReady(ss[k - 1], t[k - 1], ss[k], d);
    if Proves(t[k - 1], d, ss[k].ds[d].relay.user) { j := k - 1; } else { j := SentOnProved(ss, t, k - 1, d); }
  }

  lemma BecomesProbing(s: State, a: Action, s': State, d: DeliveryId)
    requires Inv(s) && Enabled(s, a) && s' == Do(s, a) && d in s'.ds && s'.ds[d].phase.Probing?
    ensures d in s.ds && s'.ds[d].held == s.ds[d].held
    ensures s.ds[d].phase == s'.ds[d].phase || (a == Act(d, Prepare) && s.ds[d].phase == Candidate(s'.ds[d].phase.p))
  {
    if a.Act? && a.d == d { ProbingMove(s, d, s.ds[d], a.move); } else if a.Act? { OtherMove(s, a.d, a.move, d); }
  }

  lemma ProbingMove(s: State, d: DeliveryId, x: Attempt, m: Move)
    requires d in s.ds && x == s.ds[d] && MoveEnabled(s, x, m) && MoveDo(s, d, x, m).ds[d].phase.Probing?
    ensures var x' := MoveDo(s, d, x, m).ds[d];
      x'.held == x.held && (x.phase == x'.phase || (m == Prepare && x.phase == Candidate(x'.phase.p)))
  {
  }

  /** What the delivery holds was given up no longer ago than the limit on idling, if there is one. */
  predicate Recent(s: State, x: Attempt, l: Log) {
    x.held.Some? &&
    (s.limits.idleTimeout > 0 ==> s.now - Of(l, x.held.value).settled <= s.limits.idleTimeout)
  }

  lemma PreparedIsRecent(s: State, d: DeliveryId, x: Attempt, l: Log)
    requires Inv(s) && Healthy(s, l) && d in s.ds && x == s.ds[d] && MoveEnabled(s, x, Prepare)
    ensures Recent(s, x, l)
  {
    assert AttemptOk(s.conns, d, x) && Sound(x, l);
  }

  /** And none is probed for reuse that had been idle for longer than the limit. */
  lemma {:induction false} ProbedIsRecent(ss: seq<State>, t: seq<Action>, k: nat, d: DeliveryId) returns (j: nat)
    requires IsRun(ss, t) && k <= |t| && d in ss[k].ds && ss[k].ds[d].phase.Probing?
    ensures j < k && t[j] == Act(d, Prepare) && d in ss[j].ds && ss[j].ds[d].held == ss[k].ds[d].held
    ensures Recent(ss[j], ss[j].ds[d], History(ss, t, j))
  {
    assert k > 0;
    RunInv(ss, t, k - 1);
    assert StepAt(ss, t, k - 1);
    BecomesProbing(ss[k - 1], t[k - 1], ss[k], d);
    if t[k - 1] == Act(d, Prepare) {
      j := k - 1;
      RunHealthy(ss, t, j);
      PreparedIsRecent(ss[j], d, ss[j].ds[d], History(ss, t, j));
    } else {
      j := ProbedIsRecent(ss, t, k - 1, d);
    }
  }
}
