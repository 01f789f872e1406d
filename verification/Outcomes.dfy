/**
  Which outcome an event of the pipeline comes to, by what was answered to its posts, over every run.

  The record of posts and answers is kept beside the run, from the actions alone: no action depends on it.
 */
module Outcomes {
  import opened Pipeline

  /** The posts begun for an event, and the answers they met. */
  datatype Rec = Rec(posts: nat, replies: seq<Answer>)

  type Log = map<EventId, Rec>

  function Of(l: Log, e: EventId): Rec { if e in l then l[e] else Rec(0, []) }

  ghost function Logged(s: State, a: Action, l: Log): Log {
    if a.SenderDoes? && a.w in s.senders then
      var p := s.senders[a.w];
      match a.sender
      case Attempt(_) => if p.Trying? && !s.expired then l[p.e := Of(l, p.e).(posts := Of(l, p.e).posts + 1)] else l
      case Reply(ans, _) => if p.Posting? then l[p.e := Of(l, p.e).(replies := Of(l, p.e).replies + [ans])] else l
      case _ => l
    else l
  }

  /** The record of the first `k` actions. */
  ghost function History(ss: seq<State>, t: seq<Action>, k: nat): Log
    requires k <= |t| < |ss|
  {
    if k == 0 then map[] else Logged(ss[k - 1], t[k - 1], History(ss, t, k - 1))
  }

  predicate NoneFinal(rs: seq<Answer>) { forall i :: 0 <= i < |rs| ==> rs[i].Unavailable? }

  /** The last answer is `a`, and there was no final one before it. */
  predicate Last(rs: seq<Answer>, a: Answer) {
    rs != [] && rs[|rs| - 1] == a && NoneFinal(rs[..|rs| - 1])
  }

  predicate Fits(f: Fate, r: Rec, retries: nat, expired: bool) {
    r.posts == |r.replies| &&
    match f
    case Sent => Last(r.replies, Accepted)
    case RefusedSpilled(_) => Last(r.replies, Refused)
    case Spilled(_) => NoneFinal(r.replies) && (r.posts == retries + 1 || expired)
    case _ => r.posts == 0
  }

  predicate InHands(p: SenderPhase, r: Rec) {
    NoneFinal(r.replies) &&
    match p
    case Trying(_, a, _) => |r.replies| == a && r.posts == a
    case Posting(_, a, _) => |r.replies| == a && r.posts == a + 1
    case _ => false
  }

  predicate RecOk(s: State, e: EventId, r: Rec)
    requires e in s.events
  {
    var v := s.events[e];
    v.posts == r.posts &&
    match v.at
    case InSend => r == Rec(0, [])
    case InBuffer => r == Rec(0, [])
    case InHand(w) => w in s.senders && InHands(s.senders[w], r)
    case Ended => |v.ends| == 1 && Fits(v.ends[0], r, s.retries, s.expired)
  }

  ghost predicate LogOk(s: State, l: Log) {
    (forall e :: e in l ==> e in s.events) && (forall e :: e in s.events ==> RecOk(s, e, Of(l, e)))
  }

  // ---------------------------------------------------------------- preservation

  /** One event's record changes, and possibly the phase of the one sender that has it. */
  lemma OneRecord(s: State, l: Log, s': State, l': Log, e: EventId)
    requires Core(s) && LogOk(s, l) && s'.retries == s.retries && (s.expired ==> s'.expired)
    requires s'.events.Keys == s.events.Keys + {e}
    requires forall d :: d in s.events && d != e ==> s'.events[d] == s.events[d] && Of(l', d) == Of(l, d)
    requires forall w :: w in s.senders ==>
               w in s'.senders && (s'.senders[w] == s.senders[w] || forall d :: d != e ==> !Has(s.senders[w], d))
    requires l'.Keys <= s'.events.Keys && RecOk(s', e, Of(l', e))
    ensures LogOk(s', l')
  {
    forall d | d in s'.events ensures RecOk(s', d, Of(l', d)) {
      if d != e { assert RecOk(s, d, Of(l, d)) && EventOk(s, d); }
    }
  }

  /** An event no sender has had yet. */
  lemma EarlyLog(s: State, e: EventId, v: Event, buffer: seq<EventId>, l: Log)
    requires Core(s) && LogOk(s, l) && (e in s.events ==> s.events[e].at.InSend?)
    requires v.posts == 0 && (v.at.InSend? || v.at.InBuffer? || (v.at.Ended? && |v.ends| == 1 && Dropped(v.ends[0])))
    ensures LogOk(Set(s, e, v).(buffer := buffer), l)
  {
    if e in s.events { assert RecOk(s, e, Of(l, e)); }
    NotHeld(s, e);
    OneRecord(s, l, Set(s, e, v).(buffer := buffer), l, e);
  }

  predicate Dropped(f: Fate) { f.DroppedFull? || f.DroppedClosed? || f.DroppedAtClose? || f.Unencodable? }

  lemma SendLog(s: State, e: EventId, m: SendMove, l: Log)
    requires Core(s) && LogOk(s, l) && SendEnabled(s, e, m)
    ensures LogOk(DoSend(s, e, m), l)
  {
    if e in s.events { assert EventOk(s, e); }
    match m
    case Arrive => EarlyLog(s, e, Event(Arrived, 0, 0, [], InSend), s.buffer, l);
    case Check =>
      var v := s.events[e];
      var v' := if s.closed then EndEvent(v.(send := Returned), DroppedClosed) else v.(send := Passed);
      EarlyLog(s, e, v', s.buffer, l);
    case Enqueue =>
      var v := s.events[e].(send := Returned);
      if |s.buffer| < s.capacity {
        EarlyLog(s, e, v.(at := InBuffer), s.buffer + [e], l);
      } else {
        EarlyLog(s, e, EndEvent(v, DroppedFull), s.buffer, l);
      }
  }

  lemma TakeLog(s: State, w: SenderId, l: Log)
    requires Core(s) && LogOk(s, l) && w in s.senders && SenderEnabled(s, s.senders[w], Take)
    ensures LogOk(DoSender(s, w, s.senders[w], Take), l)
  {
    var e := s.buffer[0];
    assert RecOk(s, e, Of(l, e)) && EventOk(s, e);
    OneRecord(s, l, DoSender(s, w, s.senders[w], Take), l, e);
  }

  /** The event in a sender's hands goes on, or comes to its end there. */
  lemma HandLog(s: State, w: SenderId, e: EventId, v: Event, p': SenderPhase, r: Rec, l: Log, s': State, l': Log)
    requires Core(s) && LogOk(s, l) && w in s.senders && Has(s.senders[w], e) && e in s.events
    requires s' == Set(s, e, v).(senders := s.senders[w := p']) && l'.Keys <= s.events.Keys
    requires Of(l', e) == r && forall d :: d != e ==> Of(l', d) == Of(l, d)
    requires v.posts == r.posts
    requires (v.at == InHand(w) && InHands(p', r)) ||
             (v.at.Ended? && |v.ends| == 1 && Fits(v.ends[0], r, s.retries, s.expired))
    ensures LogOk(s', l')
  {
    OneRecord(s, l, s', l', e);
  }

  lemma Held(s: State, w: SenderId, e: EventId, l: Log)
    requires Core(s) && LogOk(s, l) && w in s.senders && Has(s.senders[w], e)
    ensures e in s.events && s.events[e].at == InHand(w) && s.events[e].ends == []
    ensures InHands(s.senders[w], Of(l, e)) && s.events[e].posts == Of(l, e).posts
  {
    HeldByOne(s, w, e);
    assert RecOk(s, e, Of(l, e));
  }

  lemma EncodeLog(s: State, w: SenderId, l: Log)
    requires Core(s) && LogOk(s, l) && w in s.senders && SenderEnabled(s, s.senders[w], EncodeFails)
    ensures LogOk(DoSender(s, w, s.senders[w], EncodeFails), l)
  {
    var p := s.senders[w];
    Held(s, w, p.e, l);
    HandLog(s, w, p.e, EndEvent(s.events[p.e], Unencodable), Back(p.drain), Of(l, p.e), l,
            DoSender(s, w, p, EncodeFails), l);
  }

  /** The shutdown has run out, and the event is spilled. */
  lemma GivenUpLog(s: State, w: SenderId, p: SenderPhase, written: bool, l: Log)
    requires Core(s) && LogOk(s, l) && w in s.senders && p == s.senders[w] && p.Trying? && p.e in s.events && s.expired
    ensures LogOk(Set(s, p.e, EndEvent(s.events[p.e], Spilled(written))).(senders := s.senders[w := Back(p.drain)]), l)
  {
    var v' := EndEvent(s.events[p.e], Spilled(written));
    Held(s, w, p.e, l);
    HandLog(s, w, p.e, v', Back(p.drain), Of(l, p.e), l, Set(s, p.e, v').(senders := s.senders[w := Back(p.drain)]), l);
  }

  lemma PostLog(s: State, w: SenderId, p: SenderPhase, p': SenderPhase, v': Event, r': Rec, l: Log)
    requires Core(s) && LogOk(s, l) && w in s.senders && p == s.senders[w] && p.Trying? && p.e in s.events
    requires v' == s.events[p.e].(posts := s.events[p.e].posts + 1) && p' == Posting(p.e, p.attempt, p.drain)
    requires r' == Of(l, p.e).(posts := Of(l, p.e).posts + 1)
    ensures LogOk(Set(s, p.e, v').(senders := s.senders[w := p']), l[p.e := r'])
  {
    Held(s, w, p.e, l);
    HandLog(s, w, p.e, v', p', r', l, Set(s, p.e, v').(senders := s.senders[w := p']), l[p.e := r']);
  }

  lemma AttemptLog(s: State, w: SenderId, written: bool, l: Log)
    requires Core(s) && LogOk(s, l) && w in s.senders && SenderEnabled(s, s.senders[w], Attempt(written))
    ensures LogOk(DoSender(s, w, s.senders[w], Attempt(written)), Logged(s, SenderDoes(w, Attempt(written)), l))
  {
    var p := s.senders[w];
    assert SenderOk(s, w, p);
    AttemptIs(s, w, p, written, l);
    if s.expired {
      GivenUpLog(s, w, p, written, l);
    } else {
      PostLog(s, w, p, Posting(p.e, p.attempt, p.drain), s.events[p.e].(posts := s.events[p.e].posts + 1),
              Of(l, p.e).(posts := Of(l, p.e).posts + 1), l);
    }
  }

  lemma AttemptIs(s: State, w: SenderId, p: SenderPhase, written: bool, l: Log)
    requires w in s.senders && p == s.senders[w] && SenderEnabled(s, p, Attempt(written)) && p.e in s.events
    ensures var s', l' := DoSender(s, w, p, Attempt(written)), Logged(s, SenderDoes(w, Attempt(written)), l);
      if s.expired then
        l' == l &&
        s' == Set(s, p.e, EndEvent(s.events[p.e], Spilled(written))).(senders := s.senders[w := Back(p.drain)])
      else
        l' == l[p.e := Of(l, p.e).(posts := Of(l, p.e).posts + 1)] &&
        s' == Set(s, p.e, s.events[p.e].(posts := s.events[p.e].posts + 1))
              .(senders := s.senders[w := Posting(p.e, p.attempt, p.drain)])
  {
  }

  lemma OneMoreReply(rs: seq<Answer>, a: Answer)
    requires NoneFinal(rs)
    ensures Last(rs + [a], a) && (a.Unavailable? ==> NoneFinal(rs + [a]))
  {
    assert (rs + [a])[..|rs|] == rs;
  }

  /** What an answer makes of an event and of the sender that has it. */
  lemma ReplyFits(s: State, w: SenderId, ans: Answer, written: bool, r: Rec)
    requires w in s.senders && SenderEnabled(s, s.senders[w], Reply(ans, written))
    requires InHands(s.senders[w], r) && r.posts <= s.retries + 1
    requires s.events[s.senders[w].e].at == InHand(w) && s.events[s.senders[w].e].ends == []
    ensures var (_, v, p') := SenderNext(s, w, s.senders[w], Reply(ans, written));
      var r' := r.(replies := r.replies + [ans]);
      v.posts == s.events[s.senders[w].e].posts &&
      ((v.at == InHand(w) && InHands(p', r')) ||
       (v.at.Ended? && |v.ends| == 1 && Fits(v.ends[0], r', s.retries, s.expired)))
  {
    OneMoreReply(r.replies, ans);
  }

  lemma ReplyLog(s: State, w: SenderId, ans: Answer, written: bool, l: Log)
    requires Core(s) && LogOk(s, l) && w in s.senders && SenderEnabled(s, s.senders[w], Reply(ans, written))
    ensures LogOk(DoSender(s, w, s.senders[w], Reply(ans, written)), Logged(s, SenderDoes(w, Reply(ans, written)), l))
  {
    var p := s.senders[w];
    var r := Of(l, p.e);
    Held(s, w, p.e, l);
    assert SenderOk(s, w, p);
    ReplyFits(s, w, ans, written, r);
    var (_, v, p') := SenderNext(s, w, p, Reply(ans, written));
    var r' := r.(replies := r.replies + [ans]);
    ReplyIs(s, w, p, ans, written, v, p', l);
    HandLog(s, w, p.e, v, p', r', l, Set(s, p.e, v).(senders := s.senders[w := p']), l[p.e := r']);
  }

  lemma ReplyIs(s: State, w: SenderId, p: SenderPhase, ans: Answer, written: bool, v: Event, p': SenderPhase, l: Log)
    requires w in s.senders && p == s.senders[w] && SenderEnabled(s, p, Reply(ans, written))
    requires SenderNext(s, w, p, Reply(ans, written)) == (p.e, v, p')
    ensures DoSender(s, w, p, Reply(ans, written)) == Set(s, p.e, v).(senders := s.senders[w := p'])
    ensures Logged(s, SenderDoes(w, Reply(ans, written)), l) ==
            l[p.e := Of(l, p.e).(replies := Of(l, p.e).replies + [ans])]
  {
  }

  lemma QuietLog(s: State, s': State, l: Log)
    requires LogOk(s, l) && s'.events == s.events && s'.retries == s.retries && (s.expired ==> s'.expired)
    requires s'.senders == s.senders
    ensures LogOk(s', l)
  {
    forall d | d in s'.events ensures RecOk(s', d, Of(l, d)) { assert RecOk(s, d, Of(l, d)); }
  }

  /** A sender that has nothing changes its phase. */
  lemma IdleLog(s: State, w: SenderId, p': SenderPhase, s': State, l: Log)
    requires Core(s) && LogOk(s, l) && w in s.senders && !s.senders[w].Trying? && !s.senders[w].Posting?
    requires s' == s.(senders := s.senders[w := p'])
    ensures LogOk(s', l)
  {
    forall d | d in s'.events ensures RecOk(s', d, Of(l, d)) { assert RecOk(s, d, Of(l, d)) && EventOk(s, d); }
  }

  lemma SenderLog(s: State, w: SenderId, m: SenderMove, l: Log)
    requires Core(s) && LogOk(s, l) && w in s.senders && SenderEnabled(s, s.senders[w], m)
    ensures LogOk(DoSender(s, w, s.senders[w], m), Logged(s, SenderDoes(w, m), l))
  {
    match m
    case Take => TakeLog(s, w, l);
    case SeeDone => IdleLog(s, w, Draining, DoSender(s, w, s.senders[w], m), l);
    case Exit => IdleLog(s, w, Exited, DoSender(s, w, s.senders[w], m), l);
    case EncodeFails => EncodeLog(s, w, l);
    case Attempt(written) => AttemptLog(s, w, written, l);
    case Reply(ans, written) => ReplyLog(s, w, ans, written, l);
  }

  lemma DropLog(s: State, e: EventId, l: Log)
    requires Core(s) && LogOk(s, l) && s.buffer != [] && e == s.buffer[0]
    ensures e in s.events && LogOk(Set(s, e, EndEvent(s.events[e], DroppedAtClose)).(buffer := s.buffer[1..]), l)
  {
    assert RecOk(s, e, Of(l, e)) && EventOk(s, e);
    NotHeld(s, e);
    OneRecord(s, l, Set(s, e, EndEvent(s.events[e], DroppedAtClose)).(buffer := s.buffer[1..]), l, e);
  }

  lemma CloserLog(s: State, c: CloserId, m: CloserMove, l: Log)
    requires Core(s) && LogOk(s, l) && CloserEnabled(s, c, m)
    ensures LogOk(DoCloser(s, c, m), l)
  {
    if m.DropOne? { DropLog(s, s.buffer[0], l); } else { QuietLog(s, DoCloser(s, c, m), l); }
  }

  lemma StepLog(s: State, a: Action, s': State, l: Log)
    requires Core(s) && LogOk(s, l) && Enabled(s, a) && s' == Do(s, a)
    ensures LogOk(s', Logged(s, a, l))
  {
    if a.SendDoes? {
      SendLog(s, a.e, a.send, l);
    } else if a.SenderDoes? {
      SenderLog(s, a.w, a.sender, l);
    } else if a.CloserDoes? {
      CloserLog(s, a.c, a.closer, l);
    } else {
      QuietLog(s, s', l);
    }
  }

  lemma {:induction false} RunLog(ss: seq<State>, t: seq<Action>, k: nat)
    requires IsRun(ss, t) && k <= |t|
    ensures Core(ss[k]) && LogOk(ss[k], History(ss, t, k))
  {
    RunInv(ss, t, k);
    if k > 0 {
      RunLog(ss, t, k - 1);
      assert StepAt(ss, t, k - 1);
      StepLog(ss[k - 1], t[k - 1], ss[k], History(ss, t, k - 1));
    }
  }

  // ---------------------------------------------------------------- whole runs

  /** At every point of every run: an event is Sent exactly if its last post was accepted, refused and spilled exactly
      if it was refused, and no answer before the last was final; no post follows a final answer; an event spilled
      otherwise was answered as unavailable only, and every time there was left, or the shutdown had run out; and one
      that was dropped was never posted. */
  lemma OutcomeFollowsReplies(ss: seq<State>, t: seq<Action>, k: nat, e: EventId)
    requires IsRun(ss, t) && k <= |t| && e in ss[k].events
    ensures var ends, rec := ss[k].events[e].ends, Of(History(ss, t, k), e);
      var rs, posts := rec.replies, rec.posts;
      && (ends == [Sent] <==> rs != [] && rs[|rs| - 1].Accepted?)
      && (|ends| == 1 && ends[0].RefusedSpilled? <==> rs != [] && rs[|rs| - 1].Refused?)
      && (forall i :: 0 <= i < |rs| - 1 ==> rs[i].Unavailable?)
      && |rs| <= posts <= |rs| + 1 && posts == ss[k].events[e].posts
      && (posts > |rs| ==> ends == [] && forall i :: 0 <= i < |rs| ==> rs[i].Unavailable?)
      && (|ends| == 1 && ends[0].Spilled? ==>
            posts == |rs| && (posts == ss[k].retries + 1 || ss[k].expired) &&
            forall i :: 0 <= i < |rs| ==> rs[i].Unavailable?)
      && (|ends| == 1 && Dropped(ends[0]) ==> posts == 0)
  {
    RunLog(ss, t, k);
    assert RecOk(ss[k], e, Of(History(ss, t, k), e)) && EventOk(ss[k], e);
    var rs := Of(History(ss, t, k), e).replies;
    if |rs| > 0 { Before(rs); }
  }

  lemma Before(rs: seq<Answer>)
    requires |rs| > 0
    ensures NoneFinal(rs[..|rs| - 1]) <==> forall i :: 0 <= i < |rs| - 1 ==> rs[i].Unavailable?
  {
    if NoneFinal(rs[..|rs| - 1]) {
      forall i | 0 <= i < |rs| - 1 ensures rs[i].Unavailable? { assert rs[..|rs| - 1][i].Unavailable?; }
    }
  }

  /** The step that gives an event an outcome, and what it is about. */
  predicate Ends(s: State, a: Action, e: EventId, f: Fate) {
    match f
    case DroppedClosed => a == SendDoes(e, Check) && s.closed
    case DroppedFull => a == SendDoes(e, Enqueue) && |s.buffer| >= s.capacity
    case DroppedAtClose => a.CloserDoes? && a.closer.DropOne? && s.buffer != [] && s.buffer[0] == e
    case _ => a.SenderDoes? && a.w in s.senders && Has(s.senders[a.w], e) && EndsInHand(s, a.sender, f)
  }

  predicate EndsInHand(s: State, m: SenderMove, f: Fate) {
    match f
    case Sent => m.Reply? && m.ans.Accepted?
    case RefusedSpilled(written) => m.Reply? && m.ans.Refused? && m.written == written
    case Spilled(written) =>
      (m.Attempt? && s.expired && m.written == written) || (m.Reply? && m.ans.Unavailable? && m.written == written)
    case Unencodable => m.EncodeFails?
    case _ => false
  }

  /** The event a step is about, if it is about one. */
  predicate Touches(s: State, a: Action, e: EventId) {
    match a
    case SendDoes(d, _) => d == e
    case SenderDoes(w, m) =>
      if m.Take? then s.buffer != [] && s.buffer[0] == e else w in s.senders && Has(s.senders[w], e)
    case CloserDoes(_, m) => m.DropOne? && s.buffer != [] && s.buffer[0] == e
    case Expire => false
  }

  lemma SendTouches(s: State, d: EventId, m: SendMove, e: EventId)
    requires SendEnabled(s, d, m) && d != e
    ensures var s' := DoSend(s, d, m);
      (e in s'.events <==> e in s.events) && (e in s.events ==> s'.events[e] == s.events[e])
  {
    match m
    case Arrive =>
    case Check =>
    case Enqueue =>
  }

  lemma SenderTouches(s: State, w: SenderId, m: SenderMove, e: EventId)
    requires w in s.senders && SenderEnabled(s, s.senders[w], m) && !Touches(s, SenderDoes(w, m), e)
    ensures var s' := DoSender(s, w, s.senders[w], m);
      (e in s'.events <==> e in s.events) && (e in s.events ==> s'.events[e] == s.events[e])
  {
  }

  lemma CloserTouches(s: State, c: CloserId, m: CloserMove, e: EventId)
    requires CloserEnabled(s, c, m) && !Touches(s, CloserDoes(c, m), e)
    ensures var s' := DoCloser(s, c, m);
      (e in s'.events <==> e in s.events) && (e in s.events ==> s'.events[e] == s.events[e])
  {
  }

  lemma OthersStay(s: State, a: Action, s': State, e: EventId)
    requires Enabled(s, a) && s' == Do(s, a) && !Touches(s, a, e)
    ensures (e in s'.events <==> e in s.events) && (e in s.events ==> s'.events[e] == s.events[e])
  {
    if a.SendDoes? {
      SendTouches(s, a.e, a.send, e);
    } else if a.SenderDoes? {
      SenderTouches(s, a.w, a.sender, e);
    } else if a.CloserDoes? {
      CloserTouches(s, a.c, a.closer, e);
    }
  }

  lemma TouchedIsOpen(s: State, a: Action, e: EventId)
    requires Core(s) && Enabled(s, a) && Touches(s, a, e) && e in s.events
    ensures s.events[e].ends == []
  {
    assert EventOk(s, e);
    if a.SenderDoes? && Has(s.senders[a.w], e) { HeldByOne(s, a.w, e); }
  }

  lemma SendEnds(s: State, e: EventId, m: SendMove)
    requires SendEnabled(s, e, m) && (e in s.events ==> s.events[e].ends == []) && DoSend(s, e, m).events[e].ends != []
    ensures |DoSend(s, e, m).events[e].ends| == 1 && Ends(s, SendDoes(e, m), e, DoSend(s, e, m).events[e].ends[0])
  {
    SendEffect(s, e, m);
  }

  /** The two outcomes an event can get on its way in. */
  lemma SendEffect(s: State, e: EventId, m: SendMove)
    requires SendEnabled(s, e, m) && (e in s.events ==> s.events[e].ends == []) && DoSend(s, e, m).events[e].ends != []
    ensures (m.Check? && s.closed && DoSend(s, e, m).events[e].ends == [DroppedClosed]) ||
            (m.Enqueue? && |s.buffer| >= s.capacity && DoSend(s, e, m).events[e].ends == [DroppedFull])
  {
    match m
    case Arrive =>
    case Check =>
    case Enqueue =>
  }

  lemma SenderEnds(s: State, w: SenderId, m: SenderMove, e: EventId)
    requires w in s.senders && SenderEnabled(s, s.senders[w], m) && Touches(s, SenderDoes(w, m), e)
    requires e in s.events && s.events[e].ends == [] && DoSender(s, w, s.senders[w], m).events[e].ends != []
    ensures |DoSender(s, w, s.senders[w], m).events[e].ends| == 1
    ensures Ends(s, SenderDoes(w, m), e, DoSender(s, w, s.senders[w], m).events[e].ends[0])
  {
    match m
    case Take =>
    case SeeDone =>
    case Exit =>
    case EncodeFails =>
    case Attempt(_) =>
    case Reply(_, _) =>
  }

  lemma GetsOutcome(s: State, a: Action, s': State, e: EventId)
    requires Core(s) && Enabled(s, a) && s' == Do(s, a) && e in s'.events && s'.events[e].ends != []
    requires e in s.events ==> s.events[e].ends == []
    ensures |s'.events[e].ends| == 1 && Ends(s, a, e, s'.events[e].ends[0])
  {
    if !Touches(s, a, e) { OthersStay(s, a, s', e); }
    if a.SendDoes? {
      SendEnds(s, e, a.send);
    } else if a.SenderDoes? {
      SenderEnds(s, a.w, a.sender, e);
    }
  }

  /** Every outcome comes of a step of its own kind. */
  lemma {:induction false} EndedBy(ss: seq<State>, t: seq<Action>, k: nat, e: EventId) returns (j: nat)
    requires IsRun(ss, t) && k <= |t| && e in ss[k].events && ss[k].events[e].ends != []
    ensures j < k && |ss[k].events[e].ends| == 1 && Ends(ss[j], t[j], e, ss[k].events[e].ends[0])
    ensures e in ss[j].events ==> ss[j].events[e].ends == []
  {
    assert k > 0;
    RunInv(ss, t, k - 1);
    assert StepAt(ss, t, k - 1);
    var s, a := ss[k - 1], t[k - 1];
    if e in s.events && s.events[e].ends != [] {
      if Touches(s, a, e) { TouchedIsOpen(s, a, e); }
      OthersStay(s, a, ss[k], e);
      j := EndedBy(ss, t, k - 1, e);
    } else {
      GetsOutcome(s, a, ss[k], e);
      j := k - 1;
    }
  }
}
