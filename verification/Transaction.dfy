/**
  One mail transaction on an open session: MAIL, RCPT, DATA, and what is reported of it
  (mailgw-go/internal/deliver/client.go, Deliver after the connection is there; classify).

  The relay's replies are parameters.
 */
module Transaction {
  import Text

  datatype Reply =
    | Accepted(text: string)
    | SmtpError(code: int, enhanced: string, message: string)
    | Broken(message: string)

  datatype Outcome = Delivered | Deferred | Rejected

  datatype RcptResult = RcptResult(addr: string, outcome: Outcome, code: int, enhanced: string, message: string)

  datatype Failure = NoFailure | MailRefused(reply: Reply) | BodyFailed

  /** What becomes of the connection. */
  datatype Fate = Quit | Offered | Discarded

  /** What the relay answers: `rcpt(i)` to the i-th RCPT; `body` is whether the content could be sent. */
  datatype Relay = Relay(mail: Reply, rcpt: nat -> Reply, data: Reply, body: bool, final: Reply)

  function Classify(addr: string, r: Reply): RcptResult
    requires !r.Accepted?
  {
    match r
    case SmtpError(code, enhanced, message) =>
      RcptResult(addr, if code >= 500 then Rejected else Deferred, code, enhanced, Text.Trim(message))
    case Broken(message) => RcptResult(addr, Deferred, 451, "", message)
  }

  function Response(text: string): string { if Text.Trim(text) == "" then "250 OK" else Text.Trim(text) }

  /** The outcome of a recipient whose RCPT was accepted. */
  function Late(addr: string, relay: Relay): RcptResult {
    if !relay.data.Accepted? then Classify(addr, relay.data)
    else if !relay.final.Accepted? then Classify(addr, relay.final)
    else RcptResult(addr, Delivered, 250, "", Response(relay.final.text))
  }

  /** The outcome of the i-th recipient: the first refusal that concerns it. */
  function Verdict(rcpts: seq<string>, i: nat, relay: Relay): RcptResult
    requires i < |rcpts|
  {
    if relay.rcpt(i).Accepted? then Late(rcpts[i], relay) else Classify(rcpts[i], relay.rcpt(i))
  }

  function Verdicts(rcpts: seq<string>, n: nat, relay: Relay): (v: seq<RcptResult>)
    requires n <= |rcpts|
    ensures |v| == n
  {
    if n == 0 then [] else Verdicts(rcpts, n - 1, relay) + [Verdict(rcpts, n - 1, relay)]
  }

  function Refusals(rcpts: seq<string>, n: nat, relay: Relay): seq<RcptResult>
    requires n <= |rcpts|
  {
    if n == 0 then []
    else Refusals(rcpts, n - 1, relay) +
         (if relay.rcpt(n - 1).Accepted? then [] else [Classify(rcpts[n - 1], relay.rcpt(n - 1))])
  }

  function Taken(rcpts: seq<string>, n: nat, relay: Relay): seq<string>
    requires n <= |rcpts|
  {
    if n == 0 then []
    else Taken(rcpts, n - 1, relay) + (if relay.rcpt(n - 1).Accepted? then [rcpts[n - 1]] else [])
  }

  function LateAll(addrs: seq<string>, relay: Relay): (r: seq<RcptResult>)
    ensures |r| == |addrs| && forall i :: 0 <= i < |addrs| ==> r[i] == Late(addrs[i], relay)
  {
    seq(|addrs|, i requires 0 <= i < |addrs| => Late(addrs[i], relay))
  }

  function Addrs(rs: seq<RcptResult>): (a: seq<string>)
    ensures |a| == |rs| && forall i :: 0 <= i < |rs| ==> a[i] == rs[i].addr
  {
    seq(|rs|, i requires 0 <= i < |rs| => rs[i].addr)
  }

  // ---------------------------------------------------------------- everyone is accounted for

  lemma LateSnoc(addrs: seq<string>, addr: string, relay: Relay)
    ensures LateAll(addrs + [addr], relay) == LateAll(addrs, relay) + [Late(addr, relay)]
  {
  }

  lemma MoreOnTheLeft<T>(a: seq<T>, b: seq<T>, all: seq<T>, a': seq<T>, all': seq<T>, x: T)
    requires multiset(a) + multiset(b) == multiset(all) && a' == a + [x] && all' == all + [x]
    ensures multiset(a') + multiset(b) == multiset(all')
  {
    assert multiset(a') == multiset(a) + multiset{x} && multiset(all') == multiset(all) + multiset{x};
  }

  lemma MoreOnTheRight<T>(a: seq<T>, b: seq<T>, all: seq<T>, b': seq<T>, all': seq<T>, x: T)
    requires multiset(a) + multiset(b) == multiset(all) && b' == b + [x] && all' == all + [x]
    ensures multiset(a) + multiset(b') == multiset(all')
  {
    assert multiset(b') == multiset(b) + multiset{x} && multiset(all') == multiset(all) + multiset{x};
  }

  /** What one more recipient adds. */
  lemma RefusedNext(rcpts: seq<string>, m: nat, n: nat, relay: Relay) returns (x: RcptResult)
    requires n == m + 1 && n <= |rcpts| && !relay.rcpt(m).Accepted?
    ensures Refusals(rcpts, n, relay) == Refusals(rcpts, m, relay) + [x] && x.addr == rcpts[m]
    ensures Taken(rcpts, n, relay) == Taken(rcpts, m, relay)
    ensures Verdicts(rcpts, n, relay) == Verdicts(rcpts, m, relay) + [x]
  {
    x := Classify(rcpts[m], relay.rcpt(m));
  }

  lemma TakenNext(rcpts: seq<string>, m: nat, n: nat, relay: Relay) returns (x: RcptResult)
    requires n == m + 1 && n <= |rcpts| && relay.rcpt(m).Accepted?
    ensures Refusals(rcpts, n, relay) == Refusals(rcpts, m, relay)
    ensures Taken(rcpts, n, relay) == Taken(rcpts, m, relay) + [rcpts[m]]
    ensures LateAll(Taken(rcpts, n, relay), relay) == LateAll(Taken(rcpts, m, relay), relay) + [x]
    ensures Verdicts(rcpts, n, relay) == Verdicts(rcpts, m, relay) + [x]
  {
    x := Late(rcpts[m], relay);
    LateSnoc(Taken(rcpts, m, relay), rcpts[m], relay);
  }

  lemma {:induction false} PartsAreVerdicts(rcpts: seq<string>, n: nat, relay: Relay)
    requires n <= |rcpts|
    ensures multiset(Refusals(rcpts, n, relay)) + multiset(LateAll(Taken(rcpts, n, relay), relay)) ==
            multiset(Verdicts(rcpts, n, relay))
  {
    if n > 0 {
      var m := n - 1;
      PartsAreVerdicts(rcpts, m, relay);
      var refused, late := Refusals(rcpts, m, relay), LateAll(Taken(rcpts, m, relay), relay);
      if relay.rcpt(m).Accepted? {
        var x := TakenNext(rcpts, m, n, relay);
        MoreOnTheRight(refused, late, Verdicts(rcpts, m, relay), late + [x], Verdicts(rcpts, n, relay), x);
      } else {
        var x := RefusedNext(rcpts, m, n, relay);
        MoreOnTheLeft(refused, late, Verdicts(rcpts, m, relay), refused + [x], Verdicts(rcpts, n, relay), x);
      }
    }
  }

  /** Refusals first, the others after, are the verdicts in another order. */
  lemma ReportIsVerdicts(rcpts: seq<string>, relay: Relay)
    ensures var n := |rcpts|;
      multiset(Refusals(rcpts, n, relay) + LateAll(Taken(rcpts, n, relay), relay)) ==
      multiset(Verdicts(rcpts, n, relay))
  {
    PartsAreVerdicts(rcpts, |rcpts|, relay);
  }

  lemma AddrsCat(a: seq<RcptResult>, b: seq<RcptResult>)
    ensures Addrs(a + b) == Addrs(a) + Addrs(b)
  {
  }

  lemma AddrsSnoc(a: seq<RcptResult>, r: RcptResult)
    ensures Addrs(a + [r]) == Addrs(a) + [r.addr]
  {
  }

  lemma PrefixSnoc(rcpts: seq<string>, n: nat)
    requires n < |rcpts|
    ensures rcpts[..n + 1] == rcpts[..n] + [rcpts[n]]
  {
  }

  lemma {:induction false} PartsName(rcpts: seq<string>, n: nat, relay: Relay)
    requires n <= |rcpts|
    ensures multiset(Addrs(Refusals(rcpts, n, relay))) + multiset(Taken(rcpts, n, relay)) == multiset(rcpts[..n])
  {
    if n > 0 {
      var m := n - 1;
      PartsName(rcpts, m, relay);
      PrefixSnoc(rcpts, m);
      var named, taken := Addrs(Refusals(rcpts, m, relay)), Taken(rcpts, m, relay);
      if relay.rcpt(m).Accepted? {
        var _ := TakenNext(rcpts, m, n, relay);
        MoreOnTheRight(named, taken, rcpts[..m], taken + [rcpts[m]], rcpts[..n], rcpts[m]);
      } else {
        var x := RefusedNext(rcpts, m, n, relay);
        AddrsSnoc(Refusals(rcpts, m, relay), x);
        MoreOnTheLeft(named, taken, rcpts[..m], named + [rcpts[m]], rcpts[..n], rcpts[m]);
      }
    }
  }

  lemma LateNames(addrs: seq<string>, relay: Relay)
    ensures Addrs(LateAll(addrs, relay)) == addrs
  {
  }

  /** The addresses reported are the addresses asked for, each as often as it was asked for. */
  lemma ReportNames(rcpts: seq<string>, relay: Relay)
    ensures var n := |rcpts|;
      multiset(Addrs(Refusals(rcpts, n, relay) + LateAll(Taken(rcpts, n, relay), relay))) == multiset(rcpts)
  {
    var n := |rcpts|;
    PartsName(rcpts, n, relay);
    assert rcpts[..n] == rcpts;
    AddrsCat(Refusals(rcpts, n, relay), LateAll(Taken(rcpts, n, relay), relay));
    LateNames(Taken(rcpts, n, relay), relay);
  }

  lemma {:induction false} VerdictsAt(rcpts: seq<string>, n: nat, relay: Relay)
    requires n <= |rcpts|
    ensures forall i :: 0 <= i < n ==> Verdicts(rcpts, n, relay)[i] == Verdict(rcpts, i, relay)
  {
    if n > 0 { VerdictsAt(rcpts, n - 1, relay); }
  }

  // ---------------------------------------------------------------- the transaction

  class Result {
    var rcpts: seq<RcptResult>
    var err: Failure
    var poolable: bool
    var messages: nat
    var response: string

    constructor (messages: nat)
      ensures rcpts == [] && err == NoFailure && !poolable && this.messages == messages
    {
      rcpts, err, poolable, this.messages, response := [], NoFailure, false, messages, "";
    }

    /** The loops that give every accepted recipient the same fault. */
    method Report(addrs: seq<string>, relay: Relay)
      modifies this`rcpts
      ensures rcpts == old(rcpts) + LateAll(addrs, relay)
    {
      ghost var was := rcpts;
      for i := 0 to |addrs|
        invariant rcpts == was + LateAll(addrs, relay)[..i]
      {
        rcpts := rcpts + [Late(addrs[i], relay)];
      }
    }

    /** The RCPT loop: one bad address does not sink the others. */
    method Recipients(asked: seq<string>, relay: Relay) returns (accepted: seq<string>)
      requires rcpts == []
      modifies this`rcpts
      ensures rcpts == Refusals(asked, |asked|, relay) && accepted == Taken(asked, |asked|, relay)
    {
      accepted := [];
      for i := 0 to |asked|
        invariant rcpts == Refusals(asked, i, relay) && accepted == Taken(asked, i, relay)
      {
        var r := relay.rcpt(i);
        if !r.Accepted? { rcpts := rcpts + [Classify(asked[i], r)]; } else { accepted := accepted + [asked[i]]; }
      }
    }

    /** MAIL, RCPT and DATA.  The report is the refusals, then what became of the rest; the session may be
        reused exactly when the message went through or every recipient was refused, and only then is the
        message counted. */
    method Transact(asked: seq<string>, relay: Relay)
      requires rcpts == [] && err == NoFailure && !poolable
      modifies this
      ensures var taken := Taken(asked, |asked|, relay);
        && (err == NoFailure <==> relay.mail.Accepted? && (taken != [] && relay.data.Accepted? ==> relay.body))
        && (err == NoFailure ==> rcpts == Refusals(asked, |asked|, relay) + LateAll(taken, relay))
        && (poolable <==> err == NoFailure && (taken == [] || (relay.data.Accepted? && relay.final.Accepted?)))
      ensures messages == old(messages) + (if poolable then 1 else 0)
      // without a yes to MAIL that answer is the error, and nothing is reported; if the content broke off, the refusals
      ensures !relay.mail.Accepted? ==> err == MailRefused(relay.mail) && rcpts == []
      ensures relay.mail.Accepted? && err != NoFailure ==>
                err == BodyFailed && rcpts == Refusals(asked, |asked|, relay)
      ensures response == if poolable && Taken(asked, |asked|, relay) != [] then Response(relay.final.text)
                          else old(response)
    {
      if !relay.mail.Accepted? {
        err := MailRefused(relay.mail);
        return;
      }
      var accepted := Recipients(asked, relay);
      if accepted == [] {
        messages, poolable := messages + 1, true;
        assert rcpts + LateAll(accepted, relay) == rcpts;
        return;
      }
      if !relay.data.Accepted? {
        Report(accepted, relay);
        return;
      }
      if !relay.body {
        err := BodyFailed;
        return;
      }
      if !relay.final.Accepted? {
        Report(accepted, relay);
        return;
      }
      response := Response(relay.final.text);
      Report(accepted, relay);
      messages, poolable := messages + 1, true;
    }

    /** The deferred decision about the connection. */
    function FateOf(pooling: bool): (f: Fate)
      reads this
    {
      if !pooling then Quit else if err == NoFailure && poolable then Offered else Discarded
    }
  }

  /** When a connection is offered to the pool: MAIL was accepted, and either no recipient was, or the message
      went through.  A RCPT that met no reply at all counts like one that was refused. */
  ghost predicate Reusable(asked: seq<string>, relay: Relay) {
    relay.mail.Accepted? &&
    ((forall i :: 0 <= i < |asked| ==> !relay.rcpt(i).Accepted?) ||
     (relay.data.Accepted? && relay.body && relay.final.Accepted?))
  }

  /** The relay answered every command that the transaction put to it. */
  ghost predicate Answered(asked: seq<string>, relay: Relay) {
    !relay.mail.Broken? &&
    (relay.mail.Accepted? ==>
       (forall i :: 0 <= i < |asked| ==> !relay.rcpt(i).Broken?) &&
       ((exists i :: 0 <= i < |asked| && relay.rcpt(i).Accepted?) ==>
          !relay.data.Broken? && (relay.data.Accepted? ==> relay.body && !relay.final.Broken?)))
  }

  /** A session that is offered answered every command exactly when no RCPT went without a reply: that is the
      one failure the code does not tell from a refusal. */
  lemma OfferedIsHealthyIff(asked: seq<string>, relay: Relay)
    requires Reusable(asked, relay)
    ensures Answered(asked, relay) <==> forall i :: 0 <= i < |asked| ==> !relay.rcpt(i).Broken?
  {
  }

  /** So a session is offered after a RCPT without a reply, alone or followed by a message that goes through. */
  lemma UnansweredIsOffered(a: string, b: string)
    ensures var silent := Relay(Accepted(""), _ => Broken("timeout"), Accepted(""), true, Accepted(""));
      Reusable([a], silent) && !Answered([a], silent)
    ensures var lapse :=
        Relay(Accepted(""), i => if i == 0 then Broken("timeout") else Accepted(""), Accepted(""), true, Accepted(""));
      Reusable([a, b], lapse) && !Answered([a, b], lapse)
  {
    var silent := Relay(Accepted(""), _ => Broken("timeout"), Accepted(""), true, Accepted(""));
    assert silent.rcpt(0).Broken?;
    var lapse :=
      Relay(Accepted(""), i => if i == 0 then Broken("timeout") else Accepted(""), Accepted(""), true, Accepted(""));
    assert lapse.rcpt(0).Broken?;
  }

  /** One call of Deliver from MAIL on.  With no connection error every recipient asked for has exactly one
      outcome, its own; the connection is offered to the pool exactly when pooling is on and the transaction
      left it reusable, and never after an error. */
  method Deliver(asked: seq<string>, relay: Relay, pooling: bool, carried: nat)
    returns (rcpts: seq<RcptResult>, err: Failure, fate: Fate, messages: nat)
    ensures fate.Offered? <==> pooling && Reusable(asked, relay)
    ensures fate.Offered? ==> err == NoFailure && messages == carried + 1
    ensures err == NoFailure ==> multiset(Addrs(rcpts)) == multiset(asked)
    ensures err == NoFailure ==> multiset(rcpts) == multiset(Verdicts(asked, |asked|, relay))
    ensures forall i :: 0 <= i < |asked| ==> Verdicts(asked, |asked|, relay)[i] == Verdict(asked, i, relay)
    ensures !relay.mail.Accepted? ==> err == MailRefused(relay.mail) && rcpts == []
    ensures relay.mail.Accepted? && err != NoFailure ==> err == BodyFailed && !relay.body
    ensures fate.Quit? <==> !pooling
  {
    var res := new Result(carried);
    res.Transact(asked, relay);
    ReportIsVerdicts(asked, relay);
    ReportNames(asked, relay);
    VerdictsAt(asked, |asked|, relay);
    NoneTaken(asked, |asked|, relay);
    rcpts, err, fate, messages := res.rcpts, res.err, res.FateOf(pooling), res.messages;
  }

  lemma {:induction false} NoneTaken(rcpts: seq<string>, n: nat, relay: Relay)
    requires n <= |rcpts|
    ensures Taken(rcpts, n, relay) == [] <==> forall i :: 0 <= i < n ==> !relay.rcpt(i).Accepted?
  {
    if n > 0 { NoneTaken(rcpts, n - 1, relay); }
  }

  /** The first reply about recipient `i` that is not a yes, or the last. */
  function FirstRefusal(i: nat, relay: Relay): Reply {
    if !relay.rcpt(i).Accepted? then relay.rcpt(i) else if !relay.data.Accepted? then relay.data else relay.final
  }

  lemma ResponseIs(text: string)
    ensures if Text.AllBlank(text) then Response(text) == "250 OK" else Text.Padded(text, Response(text))
  {
    Text.TrimIsPadded(text);
    var t := Text.Trim(text);
    var i: nat, j: nat :| Text.PaddedAt(text, t, i, j);
    if t == "" {
      assert text == text[..i] + text[j..];
    } else {
      assert text[i] == t[0];
    }
  }

  /** A recipient is given up only on an SMTP reply of 500 or more; everything else is kept for a retry.  What is
      reported of it is what the reply says, without the blanks around it. */
  lemma OutcomeFollowsReply(rcpts: seq<string>, i: nat, relay: Relay)
    requires i < |rcpts|
    ensures Verdict(rcpts, i, relay).addr == rcpts[i]
    ensures Verdict(rcpts, i, relay).outcome.Delivered? <==>
              relay.rcpt(i).Accepted? && relay.data.Accepted? && relay.final.Accepted?
    ensures Verdict(rcpts, i, relay).outcome.Rejected? <==>
              FirstRefusal(i, relay).SmtpError? && FirstRefusal(i, relay).code >= 500
    ensures var v := Verdict(rcpts, i, relay);
      match FirstRefusal(i, relay)
      case SmtpError(code, enhanced, message) =>
        v.code == code && v.enhanced == enhanced && Text.Padded(message, v.message)
      case Broken(message) => v.code == 451 && v.enhanced == "" && v.message == message
      case Accepted(text) =>
        v.code == 250 && v.enhanced == "" &&
        if Text.AllBlank(text) then v.message == "250 OK" else Text.Padded(text, v.message)
  {
    match FirstRefusal(i, relay)
    case SmtpError(_, _, message) => Text.TrimIsPadded(message);
    case Broken(_) =>
    case Accepted(text) => ResponseIs(text);
  }
}
