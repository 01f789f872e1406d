/**
  Which sessions the messages of a relay can go on: exactly those that some relay of the process with the same
  pool key can make.  Delivery.SentOnMade is one half; the other constructs the runs.
 */
module Misfiled {
  import opened Options
  import opened PoolKey
  import opened Pool
  import opened Delivery
  import Transaction

  const UNLIMITED := Limits(0, 0, 0, 0)

  /** A run, and the state it has come to. */
  datatype Run = Run(ss: seq<State>, t: seq<Action>, now: State)

  /** What a process is set up with. */
  datatype Setup = Setup(relays: set<Relay>, local: string)

  ghost predicate IsSetup(u: Setup) { forall r :: r in u.relays ==> IsAddr(r.addr) }

  ghost predicate IsRunTo(r: Run) { IsRun(r.ss, r.t) && r.now == r.ss[|r.t|] }

  predicate Has(s: State, u: Setup) { s.relays == u.relays && s.local == u.local }

  const YES := Transaction.Accepted("")

  /** A message without recipients, which leaves the session to be used again. */
  function Sending(): Move { Send([], Transaction.Relay(YES, i => YES, YES, true, YES)) }

  /** One more action. */
  lemma Then(r: Run, a: Action) returns (r': Run)
    requires IsRunTo(r) && Enabled(r.now, a)
    ensures IsRunTo(r') && r'.now == Do(r.now, a) && r'.t == r.t + [a]
    ensures r'.ss[|r.t|] == r.now && r'.ss[0] == r.ss[0]
  {
    r' := Run(r.ss + [Do(r.now, a)], r.t + [a], Do(r.now, a));
    forall k | 0 <= k < |r'.t| ensures StepAt(r'.ss, r'.t, k) {
      if k < |r.t| { assert StepAt(r.ss, r.t, k); }
    }
  }

  // ---------------------------------------------------------------- a first delivery makes a session

  /** The first delivery, of relay `y`, is alone with an empty pool. */
  predicate Alone(s: State, u: Setup, y: Relay, x: Attempt) {
    Has(s, u) && s.limits == UNLIMITED && s.idle == map[] && s.now == 0 && 1 !in s.ds &&
    0 in s.ds && s.ds[0] == x && x.relay == y && x.local == u.local && x.pooling && x.callback.Waiting?
  }

  /** It has got to `phase` with an open connection whose session is `n`. */
  predicate Reached(s: State, u: Setup, y: Relay, phase: Phase, n: Session) {
    0 in s.ds && Alone(s, u, y, s.ds[0]) && s.ds[0].phase == phase && s.ds[0].guard == s.ds[0].held &&
    Holds(s, s.ds[0]) && Held(s, s.ds[0]) == Conn(true, n, y, HeldBy(0))
  }

  lemma Begins(u: Setup, y: Relay) returns (r: Run)
    requires IsSetup(u) && y in u.relays
    ensures IsRunTo(r) && Has(r.ss[0], u) && r.now.conns == map[]
    ensures 0 in r.now.ds && Alone(r.now, u, y, r.now.ds[0])
    ensures r.now.ds[0].phase == Dialling(y.policy.Cleartext?)
  {
    var s := State(u.relays, u.local, UNLIMITED, 0, map[], map[], map[]);
    r := Run([s], [], s);
    r := Then(r, Start(0, y, true));
    r := Then(r, Act(0, Take));
  }

  lemma Dials(r: Run, u: Setup, y: Relay, plain: bool, c: ConnId) returns (r': Run)
    requires IsRunTo(r) && 0 in r.now.ds && Alone(r.now, u, y, r.now.ds[0])
    requires r.now.ds[0].phase == Dialling(plain) && c !in r.now.conns
    ensures IsRunTo(r') && r'.ss[0] == r.ss[0]
    ensures Reached(r'.now, u, y, Guarded(plain), Session(y.addr, "", false, u.local))
    ensures r'.now.ds[0].held == Some(c) && r'.now.conns.Keys == r.now.conns.Keys + {c}
  {
    r' := Then(r, Act(0, Dial(c)));
    r' := Then(r', Act(0, Arm));
  }

  lemma Secures(u: Setup, y: Relay) returns (r: Run)
    requires IsSetup(u) && y in u.relays && !y.policy.Cleartext?
    ensures IsRunTo(r) && Has(r.ss[0], u)
    ensures Reached(r.now, u, y, Secured, Session(y.addr, "", true, u.local))
  {
    r := Begins(u, y);
    r := Dials(r, u, y, false, 0);
    r := Then(r, Act(0, StartTls(true)));
  }

  /** In the clear: at once, or after a STARTTLS that failed. */
  lemma FallsBack(u: Setup, y: Relay) returns (r: Run)
    requires IsSetup(u) && y in u.relays && !y.policy.Required?
    ensures IsRunTo(r) && Has(r.ss[0], u)
    ensures Reached(r.now, u, y, Guarded(true), Session(y.addr, "", false, u.local))
  {
    r := Begins(u, y);
    r := Dials(r, u, y, y.policy.Cleartext?, 0);
    if !y.policy.Cleartext? {
      r := Then(r, Act(0, StartTls(false)));
      r := Dials(r, u, y, true, 1);
    }
  }

  lemma IsGreeted(u: Setup, y: Relay, encrypted: bool) returns (r: Run)
    requires IsSetup(u) && y in u.relays && MayDial(y, !encrypted)
    ensures IsRunTo(r) && Has(r.ss[0], u)
    ensures Reached(r.now, u, y, Greeted, Session(y.addr, "", encrypted, u.local))
  {
    if encrypted { r := Secures(u, y); } else { r := FallsBack(u, y); }
    r := Then(r, Act(0, Hello(true)));
  }

  lemma IsReady(u: Setup, y: Relay, n: Session) returns (r: Run)
    requires IsSetup(u) && y in u.relays && Makes(y, u.local, n)
    ensures IsRunTo(r) && Has(r.ss[0], u) && Reached(r.now, u, y, Ready(0), n)
  {
    r := IsGreeted(u, y, n.encrypted);
    r := Then(r, Act(0, Authenticate(true)));
  }

  /** It sends, and the session goes to the pool. */
  predicate Filed(s: State, u: Setup, y: Relay, n: Session, c: ConnId) {
    Has(s, u) && s.limits == UNLIMITED && s.now == 0 && 1 !in s.ds &&
    s.idle == map[Key(IdOf(y, u.local)) := [Pooled(c, 1, 0)]] &&
    c in s.conns && s.conns[c].open && s.conns[c].sess == n
  }

  lemma IsStopped(u: Setup, y: Relay, n: Session) returns (r: Run)
    requires IsSetup(u) && y in u.relays && Makes(y, u.local, n)
    ensures IsRunTo(r) && Has(r.ss[0], u) && Has(r.now, u) && r.now.limits == UNLIMITED && r.now.now == 0
    ensures r.now.idle == map[] && 1 !in r.now.ds && 0 in r.now.ds && r.now.ds[0].phase == Settling(true, 1)
    ensures r.now.ds[0].relay == y && r.now.ds[0].local == u.local && r.now.ds[0].pooling
    ensures Holds(r.now, r.now.ds[0]) && Held(r.now, r.now.ds[0]).open && Held(r.now, r.now.ds[0]).sess == n
  {
    r := IsReady(u, y, n);
    r := Then(r, Act(0, Sending()));
    r := Then(r, Act(0, Stop));
    r := Then(r, Act(0, Clear));
  }

  lemma IsFiled(u: Setup, y: Relay, n: Session) returns (r: Run, c: ConnId)
    requires IsSetup(u) && y in u.relays && Makes(y, u.local, n)
    ensures IsRunTo(r) && Has(r.ss[0], u) && Filed(r.now, u, y, n, c)
  {
    r := IsStopped(u, y, n);
    c := r.now.ds[0].held.value;
    var key := Key(IdOf(y, u.local));
    assert At(map[], key) + [Pooled(c, 1, 0)] == [Pooled(c, 1, 0)];
    assert Accepts(UNLIMITED, map[], key, 1);
    assert Offered(UNLIMITED, map[], key, Pooled(c, 1, 0)) == map[key := [Pooled(c, 1, 0)]];
    r := Then(r, Act(0, Settle));
  }

  // ---------------------------------------------------------------- a second one borrows it

  /** In `r` the k-th action sends a message of delivery `d`, of relay `x`, on a session that is `n`. */
  ghost predicate Sends(r: Run, u: Setup, k: nat, d: DeliveryId, x: Relay, n: Session) {
    IsRunTo(r) && Has(r.ss[0], u) && k < |r.t| && r.t[k].Act? && r.t[k].d == d && r.t[k].move.Send? &&
    d in r.ss[k].ds && r.ss[k].ds[d].relay == x && Holds(r.ss[k], r.ss[k].ds[d]) &&
    Held(r.ss[k], r.ss[k].ds[d]).sess == n
  }

  /** Some run of the process sends a message of `x` on a session that is `n`. */
  ghost predicate CanSend(u: Setup, x: Relay, n: Session) {
    exists r: Run, k: nat, d: DeliveryId :: Sends(r, u, k, d, x, n)
  }

  lemma Borrows(u: Setup, x: Relay, y: Relay, n: Session) returns (r: Run, k: nat)
    requires IsSetup(u) && x in u.relays && y in u.relays && Key(IdOf(y, u.local)) == Key(IdOf(x, u.local))
    requires Makes(y, u.local, n)
    ensures Sends(r, u, k, 1, x, n)
  {
    var c;
    r, c := IsFiled(u, y, n);
    r := Then(r, Start(1, x, true));
    assert At(r.now.idle, Key(IdOf(x, u.local))) == [Pooled(c, 1, 0)];
    r := Then(r, Act(1, Take));
    assert r.now.ds[1].phase == Candidate(Pooled(c, 1, 0)) && r.now.conns[c].open;
    r := Then(r, Act(1, Prepare));
    r := Then(r, Act(1, Probe(true)));
    k := |r.t|;
    r := Then(r, Act(1, Sending()));
  }

  /** `y` is a relay of the process with the key of `x`, and makes sessions that are `n`. */
  predicate Lends(u: Setup, x: Relay, y: Relay, n: Session) {
    y in u.relays && Key(IdOf(y, u.local)) == Key(IdOf(x, u.local)) && Makes(y, u.local, n)
  }

  /** Exactly the sessions that some relay of the process with the same key can make. */
  lemma SentIffMade(u: Setup, x: Relay, n: Session)
    requires IsSetup(u) && x in u.relays
    ensures CanSend(u, x, n) <==> exists y :: Lends(u, x, y, n)
  {
    if y :| Lends(u, x, y, n) {
      var r, k := Borrows(u, x, y, n);
    }
    if CanSend(u, x, n) {
      var r: Run, k: nat, d: DeliveryId :| Sends(r, u, k, d, x, n);
      var y := SentOnMade(r.ss, r.t, k, d);
      assert Lends(u, x, y, n);
    }
  }

  // ---------------------------------------------------------------- what that means for one relay

  /** A relay that never makes a session in the clear though its policy would let it: it has a user, and does not
      allow AUTH in the clear. */
  predicate Guards(x: Relay) { x.user != "" && !x.insecureAuth && !x.policy.Required? }

  /** A relay with the policy none that needs AUTH in the clear and does not allow it makes no session at all. */
  predicate CanMake(y: Relay) { !y.policy.Cleartext? || y.user == "" || y.insecureAuth }

  /** A relay of the process has the key of `x`, and either leads elsewhere, or allows AUTH in the clear where `x`
      does not. */
  predicate Confuses(u: Setup, x: Relay, y: Relay) {
    y in u.relays && Key(IdOf(y, u.local)) == Key(IdOf(x, u.local)) &&
    if y.addr != x.addr then CanMake(y) else Guards(x) && y.insecureAuth
  }

  /** What a relay with the same key makes that `x` could not. */
  lemma MakesOther(u: Setup, x: Relay, y: Relay) returns (n: Session)
    requires Confuses(u, x, y)
    ensures Lends(u, x, y, n) && !Makes(x, u.local, n)
  {
    KeyTellsLogin(IdOf(x, u.local), IdOf(y, u.local));
    LoginParts(IdOf(x, u.local));
    LoginParts(IdOf(y, u.local));
    var plain := y.policy.Cleartext? || y.addr == x.addr;
    n := Session(y.addr, y.user, !plain, u.local);
  }

  lemma OtherConfuses(u: Setup, x: Relay, y: Relay, n: Session)
    requires Lends(u, x, y, n) && !Makes(x, u.local, n)
    ensures Confuses(u, x, y)
  {
    KeyTellsLogin(IdOf(x, u.local), IdOf(y, u.local));
    LoginParts(IdOf(x, u.local));
    LoginParts(IdOf(y, u.local));
  }

  /** Every message of a relay goes on a session that the relay could have made itself, exactly if no relay of
      the process confuses it. */
  lemma OwnSessionsIff(u: Setup, x: Relay)
    requires IsSetup(u) && x in u.relays
    ensures (forall n: Session :: CanSend(u, x, n) ==> Makes(x, u.local, n)) <==> !exists y :: Confuses(u, x, y)
  {
    if y :| Confuses(u, x, y) {
      var n := MakesOther(u, x, y);
      SentIffMade(u, x, n);
    } else {
      forall n: Session | CanSend(u, x, n) ensures Makes(x, u.local, n) {
        SentIffMade(u, x, n);
        var y :| Lends(u, x, y, n);
        if !Makes(x, u.local, n) { OtherConfuses(u, x, y, n); }
      }
    }
  }

  /** A relay that is not ambiguous and guards its credentials sends in the clear exactly if the process has one
      with the same address, user and policy that allows AUTH in the clear. */
  lemma InTheClearIff(u: Setup, x: Relay)
    requires IsSetup(u) && x in u.relays && !Ambiguous(IdOf(x, u.local)) && Guards(x)
    ensures (exists n: Session :: !n.encrypted && CanSend(u, x, n)) <==> x.(insecureAuth := true) in u.relays
  {
    if x.(insecureAuth := true) in u.relays {
      var n := Session(x.addr, x.user, false, u.local);
      SentIffMade(u, x, n);
      assert Lends(u, x, x.(insecureAuth := true), n);
    }
    if n: Session :| !n.encrypted && CanSend(u, x, n) {
      SentIffMade(u, x, n);
      var y :| Lends(u, x, y, n);
      KeyIsItsOwn(IdOf(x, u.local), IdOf(y, u.local));
      assert y == x.(insecureAuth := true);
    }
  }

  /** In some process with the relay a message of it goes to another address or as another user, exactly if the
      relay is ambiguous. */
  lemma AstrayIffAmbiguous(x: Relay, local: string)
    requires IsAddr(x.addr)
    ensures Ambiguous(IdOf(x, local)) <==>
            exists relays: set<Relay>, n: Session :: SendsAstray(Setup(relays, local), x, n)
  {
    if Ambiguous(IdOf(x, local)) {
      var id := KeyConfuses(IdOf(x, local));
      var y := Relay(id.addr, id.user, id.policy, true);
      var u, n := Setup({x, y}, local), Session(y.addr, y.user, !y.policy.Cleartext?, local);
      SentIffMade(u, x, n);
      assert IdOf(y, local) == id && Lends(u, x, y, n);
      assert SendsAstray(u, x, n);
    } else {
      forall relays: set<Relay>, n: Session ensures !SendsAstray(Setup(relays, local), x, n) {
        if SendsAstray(Setup(relays, local), x, n) { StaysHome(Setup(relays, local), x, n); }
      }
    }
  }

  ghost predicate SendsAstray(u: Setup, x: Relay, n: Session) {
    IsSetup(u) && x in u.relays && (n.addr != x.addr || n.user != x.user) && CanSend(u, x, n)
  }

  lemma StaysHome(u: Setup, x: Relay, n: Session)
    requires IsSetup(u) && x in u.relays && CanSend(u, x, n) && !Ambiguous(IdOf(x, u.local))
    ensures n.addr == x.addr && n.user == x.user
  {
    SentIffMade(u, x, n);
    var y :| Lends(u, x, y, n);
    KeyIsItsOwn(IdOf(x, u.local), IdOf(y, u.local));
  }
}
