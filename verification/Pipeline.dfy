/**
  The audit-event shipper: a bounded buffer, its senders, and a Close that races with Send
  (mailgw-go/internal/events/client.go).

  Send checks the closed flag and only then enqueues, and those are two steps; the channel is
  never closed.  Each atomic operation and channel operation is one action.
 */
module Pipeline {
  type EventId = nat
  type SenderId = nat
  type CloserId = nat

  /** Terminal outcomes.  A spill may fail to reach the disk. */
  datatype Fate = Sent | RefusedSpilled(written: bool) | Spilled(written: bool) | Unencodable
    | DroppedFull | DroppedClosed | DroppedAtClose

  /** How far the call of Send has got. */
  datatype SendPhase = Arrived | Passed | Returned

  /** Bookkeeping: where an event is.  No action is guarded by it. */
  datatype Where = InSend | InBuffer | InHand(w: SenderId) | Ended

  /** `takes`, `posts` and `ends` are the history of the event. */
  datatype Event = Event(send: SendPhase, takes: nat, posts: nat, ends: seq<Fate>, at: Where)

  datatype SenderPhase =
    | Selecting
    | Draining
    | Trying(e: EventId, attempt: nat, drain: bool)
    | Posting(e: EventId, attempt: nat, drain: bool)
    | Exited

  datatype CloserPhase =
    | BeforeOnce
    | Publishing       // closed is set
    | ClosingDone      // the context is published
    | Waiting          // for the senders
    | Sweeping
    | Finished

  /** `racing` is what Send had let through, but not yet enqueued, when Close set the flag. */
  datatype State = State(
    capacity: nat, retries: nat,
    buffer: seq<EventId>,
    closed: bool, published: bool, done: bool, expired: bool,
    events: map<EventId, Event>,
    senders: map<SenderId, SenderPhase>,
    closers: map<CloserId, CloserPhase>,
    racing: set<EventId>)

  datatype Answer = Accepted | Refused | Unavailable

  datatype SendMove = Arrive | Check | Enqueue
  datatype SenderMove =
    | Take | SeeDone | Exit | EncodeFails | Attempt(written: bool) | Reply(ans: Answer, written: bool)
  datatype CloserMove = CallClose | SetClosed | Publish | CloseDone | OnceOver | Joined | DropOne | Return

  datatype Action =
    | SendDoes(e: EventId, send: SendMove)
    | SenderDoes(w: SenderId, sender: SenderMove)
    | CloserDoes(c: CloserId, closer: CloserMove)
    | Expire

  predicate SendEnabled(s: State, e: EventId, m: SendMove) {
    match m
    case Arrive => e !in s.events
    case Check => e in s.events && s.events[e].send.Arrived?
    case Enqueue => e in s.events && s.events[e].send.Passed?
  }

  predicate SenderEnabled(s: State, p: SenderPhase, m: SenderMove) {
    match m
    case Take => (p.Selecting? || p.Draining?) && s.buffer != [] && s.buffer[0] in s.events
    case SeeDone => p.Selecting? && s.done
    case Exit => p.Draining? && s.buffer == []
    case EncodeFails => p.Trying? && p.attempt == 0 && p.e in s.events
    case Attempt(_) => p.Trying? && p.e in s.events
    case Reply(_, _) => p.Posting? && p.e in s.events
  }

  ghost predicate AllExited(s: State) {
    forall w :: w in s.senders ==> s.senders[w].Exited?
  }

  ghost predicate CloserEnabled(s: State, c: CloserId, m: CloserMove) {
    if m.CallClose? then c !in s.closers
    else
      c in s.closers &&
      match m
      case SetClosed => s.closers[c].BeforeOnce? && !s.closed
      case Publish => s.closers[c].Publishing?
      case CloseDone => s.closers[c].ClosingDone?
      case OnceOver => s.closers[c].BeforeOnce? && s.done
      case Joined => s.closers[c].Waiting? && AllExited(s)
      case DropOne => s.closers[c].Sweeping? && s.buffer != [] && s.buffer[0] in s.events
      case Return => s.closers[c].Sweeping? && s.buffer == []
      case CallClose => false
  }

  ghost predicate Enabled(s: State, a: Action) {
    match a
    case SendDoes(e, m) => SendEnabled(s, e, m)
    case SenderDoes(w, m) => w in s.senders && SenderEnabled(s, s.senders[w], m)
    case CloserDoes(c, m) => CloserEnabled(s, c, m)
    case Expire => s.published
  }

  /** One more outcome for an event. */
  function EndEvent(v: Event, f: Fate): Event {
    v.(ends := v.ends + [f], at := Ended)
  }

  function Back(drain: bool): SenderPhase {
    if drain then Draining else Selecting
  }

  function Set(s: State, e: EventId, v: Event): State {
    s.(events := s.events[e := v])
  }

  ghost function PassedSends(s: State): set<EventId> {
    set e | e in s.events && s.events[e].send.Passed?
  }

  function DoSend(s: State, e: EventId, m: SendMove): State
    requires SendEnabled(s, e, m)
  {
    match m
    case Arrive => Set(s, e, Event(Arrived, 0, 0, [], InSend))
    case Check =>
      var v := s.events[e];
      Set(s, e, if s.closed then EndEvent(v.(send := Returned), DroppedClosed) else v.(send := Passed))
    case Enqueue =>
      var v := s.events[e].(send := Returned);
      if |s.buffer| < s.capacity then Set(s, e, v.(at := InBuffer)).(buffer := s.buffer + [e])
      else Set(s, e, EndEvent(v, DroppedFull))
  }

  /** The event a sender's move is about, the event's new record, and the sender's new phase. */
  function SenderNext(s: State, w: SenderId, p: SenderPhase, m: SenderMove): (r: (EventId, Event, SenderPhase))
    requires SenderEnabled(s, p, m) && !m.SeeDone? && !m.Exit?
    ensures r.0 in s.events
  {
    if m.Take? then
      var e := s.buffer[0];
      var v := s.events[e];
      (e, v.(takes := v.takes + 1, at := InHand(w)), Trying(e, 0, p.Draining?))
    else
      var v := s.events[p.e];
      match m
      case EncodeFails => (p.e, EndEvent(v, Unencodable), Back(p.drain))
      case Attempt(written) =>
        if s.expired then (p.e, EndEvent(v, Spilled(written)), Back(p.drain))
        else (p.e, v.(posts := v.posts + 1), Posting(p.e, p.attempt, p.drain))
      case Reply(ans, written) =>
        if ans.Accepted? then (p.e, EndEvent(v, Sent), Back(p.drain))
        else if ans.Refused? then (p.e, EndEvent(v, RefusedSpilled(written)), Back(p.drain))
        else if p.attempt < s.retries then (p.e, v, Trying(p.e, p.attempt + 1, p.drain))
        else (p.e, EndEvent(v, Spilled(written)), Back(p.drain))
  }

  function DoSender(s: State, w: SenderId, p: SenderPhase, m: SenderMove): State
    requires SenderEnabled(s, p, m)
  {
    if m.SeeDone? then s.(senders := s.senders[w := Draining])
    else if m.Exit? then s.(senders := s.senders[w := Exited])
    else
      var (e, v, p') := SenderNext(s, w, p, m);
      Set(s, e, v).(senders := s.senders[w := p'], buffer := if m.Take? then s.buffer[1..] else s.buffer)
  }

  ghost function DoCloser(s: State, c: CloserId, m: CloserMove): State
    requires CloserEnabled(s, c, m)
  {
    match m
    case CallClose => s.(closers := s.closers[c := BeforeOnce])
    case SetClosed => s.(closers := s.closers[c := Publishing], closed := true, racing := PassedSends(s))
    case Publish => s.(closers := s.closers[c := ClosingDone], published := true)
    case CloseDone => s.(closers := s.closers[c := Waiting], done := true)
    case OnceOver => s.(closers := s.closers[c := Waiting])
    case Joined => s.(closers := s.closers[c := Sweeping])
    case DropOne => Set(s, s.buffer[0], EndEvent(s.events[s.buffer[0]], DroppedAtClose)).(buffer := s.buffer[1..])
    case Return => s.(closers := s.closers[c := Finished])
  }

  ghost function Do(s: State, a: Action): State
    requires Enabled(s, a)
  {
    match a
    case SendDoes(e, m) => DoSend(s, e, m)
    case SenderDoes(w, m) => DoSender(s, w, s.senders[w], m)
    case CloserDoes(c, m) => DoCloser(s, c, m)
    case Expire => s.(expired := true)
  }

  /** A buffer size that is not positive is replaced by the default. */
  ghost predicate Init(s: State) {
    s.capacity > 0 && s.buffer == [] && !s.closed && !s.published && !s.done && !s.expired &&
    s.events == map[] && s.closers == map[] && s.racing == {} &&
    forall w :: w in s.senders ==> s.senders[w].Selecting?
  }

  ghost predicate StepAt(ss: seq<State>, t: seq<Action>, k: nat)
    requires k < |t| < |ss|
  {
    Enabled(ss[k], t[k]) && ss[k + 1] == Do(ss[k], t[k])
  }

  ghost predicate IsRun(ss: seq<State>, t: seq<Action>) {
    |ss| == |t| + 1 && Init(ss[0]) && forall k :: 0 <= k < |t| ==> StepAt(ss, t, k)
  }

  // ---------------------------------------------------------------- invariant

  predicate Has(p: SenderPhase, e: EventId) {
    (p.Trying? || p.Posting?) && p.e == e
  }

  predicate RecordOk(retries: nat, v: Event) {
    v.takes <= 1 && v.posts <= retries + 1 &&
    match v.at
    case InSend => !v.send.Returned? && v.ends == [] && v.takes == 0 && v.posts == 0
    case InBuffer => v.send.Returned? && v.ends == [] && v.takes == 0 && v.posts == 0
    case InHand(_) => v.send.Returned? && v.ends == [] && v.takes == 1
    case Ended => v.send.Returned? && |v.ends| == 1
  }

  predicate EventOk(s: State, e: EventId)
    requires e in s.events
  {
    var v := s.events[e];
    RecordOk(s.retries, v) &&
    (v.at.InBuffer? ==> e in s.buffer) &&
    (v.at.InHand? ==> v.at.w in s.senders && Has(s.senders[v.at.w], e))
  }

  predicate SenderOk(s: State, w: SenderId, p: SenderPhase) {
    ((p.Trying? || p.Posting?) ==>
       p.e in s.events && s.events[p.e].at == InHand(w) && p.attempt <= s.retries &&
       s.events[p.e].posts == p.attempt + (if p.Posting? then 1 else 0))
  }

  ghost predicate BufferOk(s: State) {
    (forall i :: 0 <= i < |s.buffer| ==> s.buffer[i] in s.events && s.events[s.buffer[i]].at == InBuffer) &&
    (forall i, j :: 0 <= i < j < |s.buffer| ==> s.buffer[i] != s.buffer[j]) &&
    |s.buffer| <= s.capacity
  }

  ghost predicate Core(s: State) {
    (forall e :: e in s.events ==> EventOk(s, e)) &&
    (forall w :: w in s.senders ==> SenderOk(s, w, s.senders[w])) && BufferOk(s)
  }

  ghost predicate CloserOk(s: State, p: CloserPhase) {
    (!p.BeforeOnce? ==> s.closed) &&
    (p.Waiting? || p.Sweeping? || p.Finished? ==> s.done) &&
    ((p.Sweeping? || p.Finished?) ==> AllExited(s)) &&
    (p.Finished? ==> forall e :: e in s.buffer ==> e in s.racing)
  }

  /** `c` is, or has been, inside the once-guarded part of Close, or has waited for it. */
  predicate PastOnce(s: State, c: CloserId) { c in s.closers && !s.closers[c].BeforeOnce? }

  ghost predicate CloseOk(s: State) {
    s.capacity > 0 && (s.done ==> s.closed) && (s.closed ==> exists c :: PastOnce(s, c)) &&
    (s.closed ==> forall e :: e in s.events && s.events[e].send.Passed? ==> e in s.racing) &&
    (forall c :: c in s.closers ==> CloserOk(s, s.closers[c]))
  }

  // ---------------------------------------------------------------- preservation

  /** One event's record changes, and possibly the phase of the one sender that has it, or the
      ends of the buffer. */
  lemma OneEvent(s: State, s': State, e: EventId)
    requires Core(s) && s'.retries == s.retries && s'.capacity == s.capacity
    requires s'.events.Keys == s.events.Keys + {e}
    requires forall d :: d in s.events && d != e ==> s'.events[d] == s.events[d]
    requires forall d :: d in s.buffer && d != e ==> d in s'.buffer
    requires s'.senders.Keys == s.senders.Keys
    requires forall w :: w in s.senders && s'.senders[w] != s.senders[w] ==>
               SenderOk(s', w, s'.senders[w]) && (forall d :: d != e ==> !Has(s.senders[w], d))
    requires forall w :: w in s.senders && Has(s.senders[w], e) ==> s'.senders[w] != s.senders[w]
    requires EventOk(s', e) && BufferOk(s')
    ensures Core(s')
  {
    forall d | d in s'.events ensures EventOk(s', d) {
      if d != e { assert EventOk(s, d); }
    }
    forall w | w in s'.senders ensures SenderOk(s', w, s'.senders[w]) {
      assert SenderOk(s, w, s.senders[w]);
    }
  }

  lemma NotHeld(s: State, e: EventId)
    requires Core(s) && (e in s.events ==> !s.events[e].at.InHand?)
    ensures forall w :: w in s.senders ==> !Has(s.senders[w], e)
  {
    forall w | w in s.senders ensures !Has(s.senders[w], e) {
      assert SenderOk(s, w, s.senders[w]);
    }
  }

  lemma ArriveCore(s: State, e: EventId, s': State)
    requires Core(s) && SendEnabled(s, e, Arrive) && s' == DoSend(s, e, Arrive)
    ensures Core(s')
  {
    NotHeld(s, e);
    OneEvent(s, s', e);
  }

  lemma CheckCore(s: State, e: EventId, s': State)
    requires Core(s) && SendEnabled(s, e, Check) && s' == DoSend(s, e, Check)
    ensures Core(s')
  {
    assert EventOk(s, e);
    NotHeld(s, e);
    OneEvent(s, s', e);
  }

  /** The buffer is full: the event ends where it is. */
  lemma FullCore(s: State, e: EventId, s': State)
    requires Core(s) && SendEnabled(s, e, Enqueue) && |s.buffer| >= s.capacity && s' == DoSend(s, e, Enqueue)
    ensures Core(s')
  {
    assert EventOk(s, e);
    NotHeld(s, e);
    OneEvent(s, s', e);
  }

  lemma AppendBuffer(s: State, e: EventId, s': State)
    requires BufferOk(s) && e in s.events && s.events[e].at.InSend? && |s.buffer| < s.capacity
    requires s'.buffer == s.buffer + [e] && s'.capacity == s.capacity && e in s'.events && s'.events[e].at.InBuffer?
    requires forall d :: d in s.events && d != e ==> d in s'.events && s'.events[d] == s.events[d]
    ensures BufferOk(s')
  {
    forall i | 0 <= i < |s'.buffer| ensures s'.buffer[i] in s'.events && s'.events[s'.buffer[i]].at == InBuffer { }
  }

  lemma RoomCore(s: State, e: EventId, s': State)
    requires Core(s) && SendEnabled(s, e, Enqueue) && |s.buffer| < s.capacity && s' == DoSend(s, e, Enqueue)
    ensures Core(s')
  {
    assert EventOk(s, e);
    NotHeld(s, e);
    AppendBuffer(s, e, s');
    assert s'.buffer[|s.buffer|] == e;
    OneEvent(s, s', e);
  }

  lemma TakeCore(s: State, w: SenderId, s': State)
    requires Core(s) && w in s.senders && SenderEnabled(s, s.senders[w], Take)
    requires s' == DoSender(s, w, s.senders[w], Take)
    ensures Core(s')
  {
    var e := s.buffer[0];
    assert EventOk(s, e);
    NotHeld(s, e);
    assert s.buffer == [e] + s.buffer[1..];
    OneEvent(s, s', e);
  }

  /** An event in a sender's hands is in no other's, and not in the buffer. */
  lemma HeldByOne(s: State, w: SenderId, e: EventId)
    requires Core(s) && w in s.senders && Has(s.senders[w], e)
    ensures SenderOk(s, w, s.senders[w]) && e in s.events && EventOk(s, e)
    ensures s.events[e].at == InHand(w) && e !in s.buffer
    ensures forall v :: v in s.senders && v != w ==> !Has(s.senders[v], e)
  {
    assert SenderOk(s, w, s.senders[w]) && EventOk(s, e);
    forall v | v in s.senders && v != w ensures !Has(s.senders[v], e) {
      assert SenderOk(s, v, s.senders[v]);
    }
    forall i | 0 <= i < |s.buffer| ensures s.buffer[i] != e { }
  }

  /** The buffer does not notice a change to an event that is not in it. */
  lemma SameBuffer(s: State, s': State, e: EventId)
    requires BufferOk(s) && e !in s.buffer && s'.buffer == s.buffer && s'.capacity == s.capacity
    requires forall d :: d in s.events && d != e ==> d in s'.events && s'.events[d] == s.events[d]
    ensures BufferOk(s')
  {
    forall i | 0 <= i < |s'.buffer| ensures s'.buffer[i] in s'.events && s'.events[s'.buffer[i]].at == InBuffer {
      assert s.buffer[i] in s.buffer;
    }
  }

  /** A sender moves on with the event in its hands, or is done with it. */
  lemma HandCore(s: State, w: SenderId, e: EventId, v: Event, p': SenderPhase, s': State)
    requires Core(s) && w in s.senders && Has(s.senders[w], e) && e in s.events
    requires s' == Set(s, e, v).(senders := s.senders[w := p']) && RecordOk(s.retries, v) && p' != s.senders[w]
    requires v.at.Ended? || (v.at == InHand(w) && Has(p', e))
    requires SenderOk(s', w, p')
    ensures Core(s')
  {
    HeldByOne(s, w, e);
    SameBuffer(s, s', e);
    OneEvent(s, s', e);
  }

  lemma SenderCore(s: State, w: SenderId, m: SenderMove, s': State)
    requires Core(s) && w in s.senders && SenderEnabled(s, s.senders[w], m) && !m.Take? && !m.SeeDone? && !m.Exit?
    requires s' == DoSender(s, w, s.senders[w], m)
    ensures Core(s')
  {
    var (e, v, p') := SenderNext(s, w, s.senders[w], m);
    assert SenderOk(s, w, s.senders[w]) && EventOk(s, e);
    HandCore(s, w, e, v, p', s');
  }

  lemma IdleCore(s: State, w: SenderId, p: SenderPhase, s': State)
    requires Core(s) && w in s.senders && !s.senders[w].Trying? && !s.senders[w].Posting?
    requires (p.Draining? || p.Exited?) && s' == s.(senders := s.senders[w := p])
    ensures Core(s')
  {
    forall d | d in s'.events ensures EventOk(s', d) { assert EventOk(s, d); }
    forall v | v in s'.senders ensures SenderOk(s', v, s'.senders[v]) {
      if v != w { assert SenderOk(s, v, s.senders[v]); }
    }
  }

  lemma DropCore(s: State, c: CloserId, s': State)
    requires Core(s) && CloserEnabled(s, c, DropOne) && s' == DoCloser(s, c, DropOne)
    ensures Core(s')
  {
    var e := s.buffer[0];
    assert EventOk(s, e);
    NotHeld(s, e);
    assert s.buffer == [e] + s.buffer[1..];
    OneEvent(s, s', e);
  }

  /** Steps that touch neither events, nor senders, nor the buffer. */
  lemma QuietCore(s: State, s': State)
    requires Core(s) && s'.events == s.events && s'.senders == s.senders && s'.buffer == s.buffer
    requires s'.retries == s.retries && s'.capacity == s.capacity
    ensures Core(s')
  {
    forall d | d in s'.events ensures EventOk(s', d) { assert EventOk(s, d); }
    forall v | v in s'.senders ensures SenderOk(s', v, s'.senders[v]) { assert SenderOk(s, v, s.senders[v]); }
  }

  /** What sends and senders may do to the closing protocol. */
  lemma CloseFrame(s: State, s': State)
    requires CloseOk(s) && s'.closers == s.closers
    requires s'.closed == s.closed && s'.done == s.done && s'.racing == s.racing && s'.capacity == s.capacity
    requires s.closed ==> forall e :: e in s'.events && s'.events[e].send.Passed? ==> e in s.racing
    requires s.closed ==> forall e :: e in s'.buffer ==> e in s.buffer || e in s.racing
    requires AllExited(s) ==> AllExited(s')
    ensures CloseOk(s')
  {
    forall c | c in s'.closers ensures CloserOk(s', s'.closers[c]) { assert CloserOk(s, s.closers[c]); }
    if s.closed {
      var c :| PastOnce(s, c);
      assert PastOnce(s', c);
    }
  }

  lemma SendClose(s: State, e: EventId, m: SendMove)
    requires CloseOk(s) && SendEnabled(s, e, m)
    ensures CloseOk(DoSend(s, e, m))
  {
    match m
    case Arrive => CloseFrame(s, DoSend(s, e, Arrive));
    case Check => CloseFrame(s, DoSend(s, e, Check));
    case Enqueue => CloseFrame(s, DoSend(s, e, Enqueue));
  }

  lemma SenderClose(s: State, w: SenderId, m: SenderMove)
    requires CloseOk(s) && w in s.senders && SenderEnabled(s, s.senders[w], m)
    ensures CloseOk(DoSender(s, w, s.senders[w], m))
  {
    assert !s.senders[w].Exited?;
    CloseFrame(s, DoSender(s, w, s.senders[w], m));
  }

  lemma CloserClose(s: State, c: CloserId, m: CloserMove)
    requires CloseOk(s) && CloserEnabled(s, c, m)
    ensures CloseOk(DoCloser(s, c, m))
  {
    var s' := DoCloser(s, c, m);
    forall d | d in s'.closers ensures CloserOk(s', s'.closers[d]) {
      if d in s.closers { assert CloserOk(s, s.closers[d]); }
    }
    if m.SetClosed? {
      assert PastOnce(s', c);
    } else if s.closed {
      var d :| PastOnce(s, d);
      assert PastOnce(s', d);
    }
  }

  lemma SendStepCore(s: State, e: EventId, m: SendMove, s': State)
    requires Core(s) && SendEnabled(s, e, m) && s' == DoSend(s, e, m)
    ensures Core(s')
  {
    match m
    case Arrive => ArriveCore(s, e, s');
    case Check => CheckCore(s, e, s');
    case Enqueue => if |s.buffer| < s.capacity { RoomCore(s, e, s'); } else { FullCore(s, e, s'); }
  }

  lemma SenderStepCore(s: State, w: SenderId, m: SenderMove, s': State)
    requires Core(s) && w in s.senders && SenderEnabled(s, s.senders[w], m) && s' == DoSender(s, w, s.senders[w], m)
    ensures Core(s')
  {
    if m.Take? { TakeCore(s, w, s'); }
    else if m.SeeDone? { IdleCore(s, w, Draining, s'); }
    else if m.Exit? { IdleCore(s, w, Exited, s'); }
    else { SenderCore(s, w, m, s'); }
  }

  lemma CloserStepCore(s: State, c: CloserId, m: CloserMove, s': State)
    requires Core(s) && CloserEnabled(s, c, m) && s' == DoCloser(s, c, m)
    ensures Core(s')
  {
    if m.DropOne? { DropCore(s, c, s'); } else { QuietCore(s, s'); }
  }

  lemma StepKeepsCore(s: State, a: Action, s': State)
    requires Core(s) && Enabled(s, a) && s' == Do(s, a)
    ensures Core(s')
  {
    match a
    case SendDoes(e, m) => SendStepCore(s, e, m, s');
    case SenderDoes(w, m) => SenderStepCore(s, w, m, s');
    case CloserDoes(c, m) => CloserStepCore(s, c, m, s');
    case Expire => QuietCore(s, s');
  }

  lemma StepKeepsClose(s: State, a: Action, s': State)
    requires CloseOk(s) && Enabled(s, a) && s' == Do(s, a)
    ensures CloseOk(s')
  {
    match a
    case SendDoes(e, m) => SendClose(s, e, m);
    case SenderDoes(w, m) => SenderClose(s, w, m);
    case CloserDoes(c, m) => CloserClose(s, c, m);
    case Expire => CloseFrame(s, s');
  }

  // ---------------------------------------------------------------- whole runs

  lemma {:induction false} RunInv(ss: seq<State>, t: seq<Action>, k: nat)
    requires IsRun(ss, t) && k <= |t|
    ensures Core(ss[k]) && CloseOk(ss[k])
  {
    if k > 0 {
      RunInv(ss, t, k - 1);
      assert StepAt(ss, t, k - 1);
      StepKeepsCore(ss[k - 1], t[k - 1], ss[k]);
      StepKeepsClose(ss[k - 1], t[k - 1], ss[k]);
    }
  }

  /** Once Send has returned, its event is exactly one of: in the buffer, once; in the hands of
      exactly one sender; or over, with exactly one outcome.  It is taken at most once and posted
      at most Retries+1 times. */
  lemma OneOutcome(ss: seq<State>, t: seq<Action>, k: nat, e: EventId)
    requires IsRun(ss, t) && k <= |t| && e in ss[k].events
    ensures ss[k].events[e].takes <= 1 && ss[k].events[e].posts <= ss[k].retries + 1
    ensures |ss[k].events[e].ends| <= 1
    ensures e in ss[k].buffer ==> ss[k].events[e].ends == [] && ss[k].events[e].takes == 0
    ensures ss[k].events[e].send.Returned? && e !in ss[k].buffer && ss[k].events[e].ends == [] ==>
              ss[k].events[e].takes == 1 && exists w :: w in ss[k].senders && Has(ss[k].senders[w], e)
  {
    RunInv(ss, t, k);
    var s := ss[k];
    assert EventOk(s, e);
    if e in s.buffer {
      var i :| 0 <= i < |s.buffer| && s.buffer[i] == e;
    }
  }

  /** An event is in the hands of one sender at most, and not also in the buffer; and it is in the
      buffer once at most. */
  lemma HeldOnce(ss: seq<State>, t: seq<Action>, k: nat, v: SenderId, w: SenderId, e: EventId)
    requires IsRun(ss, t) && k <= |t| && v in ss[k].senders && w in ss[k].senders
    requires Has(ss[k].senders[v], e) && Has(ss[k].senders[w], e)
    ensures v == w && e !in ss[k].buffer && e in ss[k].events && ss[k].events[e].ends == []
  {
    RunInv(ss, t, k);
    assert SenderOk(ss[k], v, ss[k].senders[v]) && SenderOk(ss[k], w, ss[k].senders[w]);
    assert EventOk(ss[k], e);
    forall i | 0 <= i < |ss[k].buffer| ensures ss[k].buffer[i] != e { }
  }

  /** Once some Close has returned, an event whose Send has returned has its one outcome, or it is
      in the buffer and was racing: past the closed check, not yet enqueued, when the flag was set. */
  lemma AfterCloseOnlyRacers(ss: seq<State>, t: seq<Action>, k: nat, c: CloserId, e: EventId)
    requires IsRun(ss, t) && k <= |t| && c in ss[k].closers && ss[k].closers[c].Finished?
    requires e in ss[k].events && ss[k].events[e].send.Returned?
    ensures |ss[k].events[e].ends| == 1 || (e in ss[k].buffer && e in ss[k].racing)
  {
    RunInv(ss, t, k);
    assert CloserOk(ss[k], ss[k].closers[c]) && EventOk(ss[k], e);
  }

  /** `racing` is what it is said to be. */
  lemma {:induction false} RacingAtClose(ss: seq<State>, t: seq<Action>, k: nat) returns (i: nat)
    requires IsRun(ss, t) && k <= |t| && ss[k].closed
    ensures i < k && !ss[i].closed && ss[k].racing == PassedSends(ss[i])
    ensures t[i].CloserDoes? && t[i].closer.SetClosed?
  {
    assert k > 0;
    assert StepAt(ss, t, k - 1);
    ClosedOnce(ss[k - 1], t[k - 1], ss[k]);
    if ss[k - 1].closed { i := RacingAtClose(ss, t, k - 1); } else { i := k - 1; }
  }

  lemma ClosedOnce(s: State, a: Action, s': State)
    requires Enabled(s, a) && s' == Do(s, a) && s'.closed
    ensures s.closed ==> s'.racing == s.racing
    ensures !s.closed ==> a.CloserDoes? && a.closer.SetClosed? && s'.racing == PassedSends(s)
  {
    match a
    case SendDoes(e, m) => SendLeavesClose(s, e, m);
    case SenderDoes(w, m) => SenderLeavesClose(s, w, s.senders[w], m);
    case CloserDoes(c, m) => CloserSetsClosed(s, c, m);
    case Expire =>
  }

  lemma SendLeavesClose(s: State, e: EventId, m: SendMove)
    requires SendEnabled(s, e, m)
    ensures DoSend(s, e, m).closed == s.closed && DoSend(s, e, m).racing == s.racing
  {
    match m
    case Arrive =>
    case Check =>
    case Enqueue =>
  }

  lemma SenderLeavesClose(s: State, w: SenderId, p: SenderPhase, m: SenderMove)
    requires SenderEnabled(s, p, m)
    ensures DoSender(s, w, p, m).closed == s.closed && DoSender(s, w, p, m).racing == s.racing
  {
  }

  lemma CloserSetsClosed(s: State, c: CloserId, m: CloserMove)
    requires CloserEnabled(s, c, m)
    ensures m.SetClosed? ==> !s.closed && DoCloser(s, c, m).racing == PassedSends(s)
    ensures !m.SetClosed? ==> DoCloser(s, c, m).closed == s.closed && DoCloser(s, c, m).racing == s.racing
  {
    match m
    case CallClose =>
    case SetClosed =>
    case Publish =>
    case CloseDone =>
    case OnceOver =>
    case Joined =>
    case DropOne =>
    case Return =>
  }

  // ---------------------------------------------------------------- one delivery

  /** The retry loop of deliver.  `expired(k)` is whether the shutdown context has ended when the
      k-th attempt is about to start, `answer(k)` what its POST meets. */
  method Deliver(retries: nat, expired: nat -> bool, answer: nat -> Answer, written: bool)
    returns (f: Fate, posts: nat)
    ensures posts <= retries + 1
    ensures forall i :: 0 <= i < posts ==> !expired(i)
    ensures forall i :: 0 <= i < posts - 1 ==> answer(i).Unavailable?
    ensures f == (if posts > 0 && answer(posts - 1).Accepted? then Sent
                  else if posts > 0 && answer(posts - 1).Refused? then RefusedSpilled(written)
                  else Spilled(written))
    ensures f.Spilled? ==> posts == retries + 1 || expired(posts)
  {
    posts := 0;
    while posts <= retries
      invariant posts <= retries + 1
      invariant forall i :: 0 <= i < posts ==> !expired(i) && answer(i).Unavailable?
    {
      if expired(posts) { return Spilled(written), posts; }
      posts := posts + 1;
      match answer(posts - 1) {
        case Accepted => return Sent, posts;
        case Refused => return RefusedSpilled(written), posts;
        case Unavailable =>
      }
    }
    f := Spilled(written);
  }
}
