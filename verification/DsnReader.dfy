/**
  What a reader finds in a delivery status notification, by the names of its fields (RFC 3464 sections 2.2 and 2.3,
  and mailgw-go/internal/dsn/dsn.go).
 */
module DsnReader {
  import opened Dsn
  import opened HeaderFields
  import opened Options
  import Text
  import Xtext

  // ---------------------------------------------------------------- finding a field

  /** The rest of the first field of that name. */
  function Find(block: seq<Bytes>, name: string): Option<Bytes> {
    if block == [] then None
    else if name + ":" <= block[0] then Some(block[0][|name| + 1..])
    else Find(block[1..], name)
  }

  /** What is said under a name, if anything is. */
  datatype Entry = Entry(name: string, value: Option<string>)

  /** A reader finds that value under that name, unless it has a line break of its own; and nothing if nothing is
      said. */
  predicate Tells(block: seq<Bytes>, e: Entry) {
    match e.value
    case None => Find(block, e.name) == None
    case Some(value) => OneLine(value) ==> Find(block, e.name) == Some(" " + value + CRLF)
  }

  predicate TellsAll(block: seq<Bytes>, es: seq<Entry>) {
    forall k :: 0 <= k < |es| ==> Tells(block, es[k])
  }

  /** The fields for what is said. */
  function Given(es: seq<Entry>): seq<Field> {
    if es == [] then []
    else if es[0].value.None? then Given(es[1..])
    else [Field(es[0].name, es[0].value.value)] + Given(es[1..])
  }

  lemma GivenOne(e: Entry)
    ensures Given([e]) == if e.value.None? then [] else [Field(e.name, e.value.value)]
  {
    assert [e][1..] == [];
  }

  lemma {:induction false} GivenCat(a: seq<Entry>, b: seq<Entry>)
    ensures Given(a + b) == Given(a) + Given(b)
  {
    if a == [] {
      assert a + b == b;
    } else {
      GivenCat(a[1..], b);
      assert (a + b)[1..] == a[1..] + b;
    }
  }

  predicate NameOk(name: string) { ':' !in name && OneLine(name) }

  /** Names that tell the fields apart. */
  predicate NamesOk(es: seq<Entry>) {
    (forall k :: 0 <= k < |es| ==> NameOk(es[k].name)) &&
    forall i, j :: 0 <= i < j < |es| ==> es[i].name != es[j].name
  }

  lemma NamedOk(es: seq<Entry>, names: seq<string>)
    requires |es| == |names| && forall k :: 0 <= k < |es| ==> es[k].name == names[k] && NameOk(names[k])
    requires forall i, j :: 0 <= i < j < |names| ==> names[i] != names[j]
    ensures NamesOk(es)
  {
  }

  lemma FirstColon(name: string, h: Bytes)
    requires NameOk(name) && name + ":" <= h
    ensures Text.IndexAny(h, {':'}) == |name| && h[..|name|] == name
  {
    assert h[|name|] == (name + ":")[|name|];
    forall i | 0 <= i < |name| ensures h[i] == name[i] { assert h[i] == (name + ":")[i]; }
  }

  lemma NameAhead(name: string, value: string)
    requires NameOk(name)
    ensures name + ":" <= Header(name, value)
  {
    assert Clean(name) == name;
    var text, folds := Clean(Split(value)[0]), Folds(Split(value)[1..]);
    assert (name + ": " + text + CRLF) + folds == (name + ":") + (" " + text + CRLF + folds);
  }

  lemma OtherName(name: string, other: string, value: string)
    requires NameOk(name) && NameOk(other) && name != other
    ensures !(name + ":" <= Header(other, value))
  {
    NameAhead(other, value);
    FirstColon(other, Header(other, value));
    if name + ":" <= Header(other, value) { FirstColon(name, Header(other, value)); }
  }

  lemma TextsNext(f: Field, fields: seq<Field>)
    ensures Texts([f] + fields) == [Header(f.name, f.value)] + Texts(fields)
  {
    assert ([f] + fields)[1..] == fields;
  }

  /** Looking past a field, and at one. */
  lemma FindNext(e: Entry, fields: seq<Field>, name: string)
    requires e.value.Some? && NameOk(e.name) && NameOk(name)
    ensures Find(Texts([Field(e.name, e.value.value)] + fields), name) ==
            if name == e.name then Some(Header(name, e.value.value)[|name| + 1..]) else Find(Texts(fields), name)
  {
    TextsNext(Field(e.name, e.value.value), fields);
    NameAhead(e.name, e.value.value);
    if name != e.name { OtherName(name, e.name, e.value.value); }
    assert ([Header(e.name, e.value.value)] + Texts(fields))[1..] == Texts(fields);
  }

  lemma {:induction false} FindsNone(es: seq<Entry>, name: string)
    requires NameOk(name) && forall k :: 0 <= k < |es| ==> NameOk(es[k].name) && es[k].name != name
    ensures Find(Texts(Given(es)), name) == None
  {
    if es != [] {
      FindsNone(es[1..], name);
      if es[0].value.Some? { FindNext(es[0], Given(es[1..]), name); }
    }
  }

  /** A reader finds what is said, under its name, and nothing under the others. */
  lemma {:induction false} FindsGiven(es: seq<Entry>, k: nat)
    requires NamesOk(es) && k < |es|
    ensures Tells(Texts(Given(es)), es[k])
  {
    var e := es[0];
    if e.value.Some? {
      FindNext(e, Given(es[1..]), es[k].name);
      if OneLine(e.value.value) { ValueOf(e.name, e.value.value); }
    }
    if k > 0 { FindsGiven(es[1..], k - 1); } else { FindsNone(es[1..], e.name); }
  }

  lemma ValueOf(name: string, value: string)
    requires NameOk(name) && OneLine(value)
    ensures |name| < |Header(name, value)| && Header(name, value)[|name| + 1..] == " " + value + CRLF
  {
    NameAhead(name, value);
    HeaderOfOneLine(name, value);
  }

  lemma FindsAll(es: seq<Entry>, fields: seq<Field>)
    requires NamesOk(es) && fields == Given(es)
    ensures TellsAll(Texts(fields), es)
  {
    forall k | 0 <= k < |es| ensures Tells(Texts(fields), es[k]) { FindsGiven(es, k); }
  }

  // ---------------------------------------------------------------- the block of a recipient

  function OriginalEntry(rc: Rcpt): Entry {
    Entry("Original-Recipient",
          if rc.origAddr == [] then None
          else Some((if rc.origType == "" then "rfc822" else Clean(Text.Lower(rc.origType))) + "; " +
                    Xtext.Encode(rc.origAddr)))
  }

  function RequiredEntries(rc: Rcpt, kind: Kind): seq<Entry> {
    [Entry("Final-Recipient", Some("rfc822; " + Clean(rc.addr))),
     Entry("Action", Some(if kind.Failed? then "failed" else if kind.Delayed? then "delayed" else "relayed")),
     Entry("Status", Some(Status(rc.status, kind)))]
  }

  /** Diagnostic text that starts with three digits is an SMTP reply. */
  function Said(diagnostic: string): string {
    var said := Clean(Text.Trim(diagnostic));
    (if |said| >= 3 && forall i :: 0 <= i < 3 ==> said[i] in "0123456789" then "smtp; " else "X-Local; ") + said
  }

  function ReasonEntries(rc: Rcpt): seq<Entry> {
    [Entry("Remote-MTA", if rc.remoteMTA == "" then None else Some("dns; " + Clean(rc.remoteMTA))),
     Entry("Diagnostic-Code", if rc.diagnostic == "" then None else Some(Said(rc.diagnostic)))]
  }

  function DateEntry(rc: Rcpt, now: string): Entry {
    Entry("Last-Attempt-Date", Some(if rc.lastAttempt.Some? then rc.lastAttempt.value else now))
  }

  /** What is said of a recipient: which one, with what action, status and time, under which name it was first
      addressed, and which system said what. */
  function RcptEntries(rc: Rcpt, kind: Kind, now: string): seq<Entry> {
    [OriginalEntry(rc)] + RequiredEntries(rc, kind) + ReasonEntries(rc) + [DateEntry(rc, now)]
  }

  lemma DigitsAre(c: char)
    ensures IsDigit(c) <==> c in "0123456789"
  {
    if IsDigit(c) { assert "0123456789"[c as int - '0' as int] == c; }
  }

  lemma DiagnosticIs(s: string)
    ensures Diagnostic(s) == Said(s)
  {
    var said := Clean(Text.Trim(s));
    if |said| >= 3 {
      DigitsAre(said[0]);
      DigitsAre(said[1]);
      DigitsAre(said[2]);
    }
  }

  lemma OriginalGiven(rc: Rcpt)
    ensures OriginalField(rc) == Given([OriginalEntry(rc)])
  {
    GivenOne(OriginalEntry(rc));
    TypeIs(rc.origType);
  }

  lemma TypeIs(t: string)
    ensures Clean(OrigType(t)) == if t == "" then "rfc822" else Clean(Text.Lower(t))
  {
  }

  lemma RequiredGiven(rc: Rcpt, kind: Kind)
    ensures RequiredFields(rc, kind) == Given(RequiredEntries(rc, kind))
  {
    var es := RequiredEntries(rc, kind);
    assert es == [es[0]] + [es[1]] + [es[2]];
    GivenCat([es[0]], [es[1]]);
    GivenCat([es[0]] + [es[1]], [es[2]]);
    GivenOne(es[0]);
    GivenOne(es[1]);
    GivenOne(es[2]);
  }

  lemma ReasonGiven(rc: Rcpt)
    ensures ReasonFields(rc) == Given(ReasonEntries(rc))
  {
    DiagnosticIs(rc.diagnostic);
    var es := ReasonEntries(rc);
    assert es == [es[0]] + [es[1]];
    GivenCat([es[0]], [es[1]]);
    GivenOne(es[0]);
    GivenOne(es[1]);
  }

  lemma RcptGiven(rc: Rcpt, kind: Kind, now: string)
    ensures RcptFields(rc, kind, now) == Given(RcptEntries(rc, kind, now))
  {
    var a, b, c, d := [OriginalEntry(rc)], RequiredEntries(rc, kind), ReasonEntries(rc), [DateEntry(rc, now)];
    OriginalGiven(rc);
    RequiredGiven(rc, kind);
    ReasonGiven(rc);
    GivenCat(a, b);
    GivenCat(a + b, c);
    GivenCat(a + b + c, d);
  }

  const RCPT_NAMES := ["Original-Recipient", "Final-Recipient", "Action", "Status", "Remote-MTA", "Diagnostic-Code",
                       "Last-Attempt-Date"]

  lemma RcptNamesOk()
    ensures forall k :: 0 <= k < 7 ==> NameOk(RCPT_NAMES[k])
  {
  }

  lemma RcptNamesDiffer()
    ensures forall i, j :: 0 <= i < j < 7 ==> RCPT_NAMES[i] != RCPT_NAMES[j]
  {
  }

  lemma RequiredNamesAre(rc: Rcpt, kind: Kind)
    ensures forall k :: 0 <= k < 3 ==> RequiredEntries(rc, kind)[k].name == RCPT_NAMES[1 + k]
  {
  }

  lemma ReasonNamesAre(rc: Rcpt)
    ensures forall k :: 0 <= k < 2 ==> ReasonEntries(rc)[k].name == RCPT_NAMES[4 + k]
  {
  }

  lemma NamesOfParts(a: Entry, b: seq<Entry>, c: seq<Entry>, d: Entry, names: seq<string>)
    requires |b| == 3 && |c| == 2 && |names| == 7 && a.name == names[0] && d.name == names[6]
    requires forall k :: 0 <= k < 3 ==> b[k].name == names[1 + k]
    requires forall k :: 0 <= k < 2 ==> c[k].name == names[4 + k]
    ensures forall k :: 0 <= k < 7 ==> ([a] + b + c + [d])[k].name == names[k]
  {
  }

  lemma RcptNamed(rc: Rcpt, kind: Kind, now: string)
    ensures NamesOk(RcptEntries(rc, kind, now))
  {
    RcptNamesOk();
    RcptNamesDiffer();
    RequiredNamesAre(rc, kind);
    ReasonNamesAre(rc);
    NamesOfParts(OriginalEntry(rc), RequiredEntries(rc, kind), ReasonEntries(rc), DateEntry(rc, now), RCPT_NAMES);
    NamedOk(RcptEntries(rc, kind, now), RCPT_NAMES);
  }

  predicate OneLineEntry(e: Entry) { e.value.Some? ==> OneLine(e.value.value) }

  lemma OneLineCat(a: string, b: string)
    requires OneLine(a) && OneLine(b)
    ensures OneLine(a + b)
  {
  }

  lemma StatusIsOneLine(s: string, k: Kind)
    ensures OneLine(Status(s, k))
  {
    var t := Clean(Text.Trim(s));
    CleanIsOneLine(Text.Trim(s));
    if t != "" {
      assert t == [t[0]] + t[1..];
      OneLineCat([k.Class()], t[1..]);
    }
  }

  lemma OriginalIsOneLine(rc: Rcpt)
    ensures OneLineEntry(OriginalEntry(rc))
  {
    TypeIs(rc.origType);
    CleanIsOneLine(OrigType(rc.origType));
    Xtext.RoundTrip(rc.origAddr);
    OneLineCat(Clean(OrigType(rc.origType)), "; ");
    OneLineCat(Clean(OrigType(rc.origType)) + "; ", Xtext.Encode(rc.origAddr));
  }

  lemma CleanedIsOneLine(prefix: string, s: string)
    requires OneLine(prefix)
    ensures OneLine(prefix + Clean(s))
  {
    CleanIsOneLine(s);
    OneLineCat(prefix, Clean(s));
  }

  lemma RecipientIsOneLine(rc: Rcpt, kind: Kind)
    ensures OneLineEntry(RequiredEntries(rc, kind)[0])
  {
    CleanedIsOneLine("rfc822; ", rc.addr);
  }

  lemma ActionIsOneLine(rc: Rcpt, kind: Kind)
    ensures OneLineEntry(RequiredEntries(rc, kind)[1])
  {
  }

  lemma RemoteIsOneLine(rc: Rcpt)
    ensures OneLineEntry(ReasonEntries(rc)[0])
  {
    CleanedIsOneLine("dns; ", rc.remoteMTA);
  }

  lemma SaidIsOneLine(diagnostic: string)
    ensures OneLine(Said(diagnostic))
  {
    CleanedIsOneLine("smtp; ", Text.Trim(diagnostic));
    CleanedIsOneLine("X-Local; ", Text.Trim(diagnostic));
  }

  predicate AllOneLine(es: seq<Entry>) { forall k :: 0 <= k < |es| ==> OneLineEntry(es[k]) }

  lemma RequiredAreOneLine(rc: Rcpt, kind: Kind)
    ensures AllOneLine(RequiredEntries(rc, kind))
  {
    RecipientIsOneLine(rc, kind);
    ActionIsOneLine(rc, kind);
    StatusIsOneLine(rc.status, kind);
    ThreeOneLine(RequiredEntries(rc, kind));
  }

  lemma ThreeOneLine(es: seq<Entry>)
    requires |es| == 3 && OneLineEntry(es[0]) && OneLineEntry(es[1]) && OneLineEntry(es[2])
    ensures AllOneLine(es)
  {
  }

  lemma ReasonsAreOneLine(rc: Rcpt)
    ensures AllOneLine(ReasonEntries(rc))
  {
    RemoteIsOneLine(rc);
    SaidIsOneLine(rc.diagnostic);
    TwoOneLine(ReasonEntries(rc));
  }

  lemma TwoOneLine(es: seq<Entry>)
    requires |es| == 2 && OneLineEntry(es[0]) && OneLineEntry(es[1])
    ensures AllOneLine(es)
  {
  }

  /** Nothing that is said of a recipient has a line break, but for a date. */
  lemma RcptIsOneLine(rc: Rcpt, kind: Kind)
    ensures AllOneLine([OriginalEntry(rc)] + RequiredEntries(rc, kind) + ReasonEntries(rc))
  {
    OriginalIsOneLine(rc);
    RequiredAreOneLine(rc, kind);
    ReasonsAreOneLine(rc);
    OneLineParts(OriginalEntry(rc), RequiredEntries(rc, kind), ReasonEntries(rc));
  }

  lemma OneLineParts(a: Entry, b: seq<Entry>, c: seq<Entry>)
    requires OneLineEntry(a) && AllOneLine(b) && AllOneLine(c)
    ensures AllOneLine([a] + b + c)
  {
  }

  /** The block of a recipient tells what there is to tell of it. */
  lemma RcptIsTold(r: Report, i: nat)
    requires i < |r.rcpts|
    ensures |Blocks(StatusText(r))| == 1 + |r.rcpts|
    ensures TellsAll(Blocks(StatusText(r))[1 + i], RcptEntries(r.rcpts[i], r.kind, r.now))
  {
    StatusIsReadBack(r);
    var rc := r.rcpts[i];
    RcptGiven(rc, r.kind, r.now);
    RcptNamed(rc, r.kind, r.now);
    FindsAll(RcptEntries(rc, r.kind, r.now), RcptFields(rc, r.kind, r.now));
  }

  // ---------------------------------------------------------------- the block of the message

  /** What is said of the message: which system reports, under which names it was known, and when it came. */
  function MessageEntries(r: Report): seq<Entry> {
    [Entry("Reporting-MTA", Some("dns; " + Clean(r.reportingMTA))),
     Entry("Original-Envelope-Id", if r.envelopeID == [] then None else Some(Xtext.Encode(r.envelopeID))),
     Entry("X-NGM-Original-Envelope", if r.originalID == "" then None else Some(Clean(r.originalID))),
     Entry("Arrival-Date", r.arrivalDate)]
  }

  const MESSAGE_NAMES := ["Reporting-MTA", "Original-Envelope-Id", "X-NGM-Original-Envelope", "Arrival-Date"]

  lemma MessageNamesOk()
    ensures forall k :: 0 <= k < 4 ==> NameOk(MESSAGE_NAMES[k])
  {
  }

  lemma MessageNamesDiffer()
    ensures forall i, j :: 0 <= i < j < 4 ==> MESSAGE_NAMES[i] != MESSAGE_NAMES[j]
  {
  }

  lemma MessageNamed(r: Report)
    ensures NamesOk(MessageEntries(r))
  {
    MessageNamesOk();
    MessageNamesDiffer();
    NamedOk(MessageEntries(r), MESSAGE_NAMES);
  }

  lemma GivenFour(a: Entry, b: Entry, c: Entry, d: Entry)
    ensures Given([a, b, c, d]) == Given([a]) + Given([b]) + Given([c]) + Given([d])
  {
    GivenCat([a], [b]);
    GivenCat([a] + [b], [c]);
    GivenCat([a] + [b] + [c], [d]);
    assert [a, b, c, d] == [a] + [b] + [c] + [d];
  }

  lemma MessageGiven(r: Report)
    ensures MessageFields(r) == Given(MessageEntries(r))
  {
    var es := MessageEntries(r);
    Xtext.RoundTrip(r.envelopeID);
    GivenFour(es[0], es[1], es[2], es[3]);
    GivenOne(es[0]);
    GivenOne(es[1]);
    GivenOne(es[2]);
    GivenOne(es[3]);
  }

  lemma ReporterIsOneLine(r: Report)
    ensures OneLineEntry(MessageEntries(r)[0])
  {
    CleanedIsOneLine("dns; ", r.reportingMTA);
  }

  lemma MessageIsOneLine(r: Report)
    ensures forall k :: 0 <= k < 3 ==> OneLineEntry(MessageEntries(r)[k])
  {
    ReporterIsOneLine(r);
    CleanIsOneLine(r.originalID);
    Xtext.RoundTrip(r.envelopeID);
  }

  /** The first block tells what there is to tell of the message. */
  lemma MessageIsTold(r: Report)
    ensures Blocks(StatusText(r)) != [] && TellsAll(Blocks(StatusText(r))[0], MessageEntries(r))
    ensures forall k :: 0 <= k < 3 ==> OneLineEntry(MessageEntries(r)[k])
  {
    StatusIsReadBack(r);
    MessageGiven(r);
    MessageNamed(r);
    MessageIsOneLine(r);
    FindsAll(MessageEntries(r), MessageFields(r));
  }

  // ---------------------------------------------------------------- the notification's own header

  function TraceEntries(r: Report): seq<Entry> {
    [Entry("Received", Some("by " + r.reportingMTA + " (mailgw-go) id " + r.originalID + "; " + r.now)),
     Entry("X-NGM-Gateway", Some("go")),
     Entry("Date", Some(r.now)),
     Entry("From", Some("Mail Delivery System <" + r.sender + ">")),
     Entry("To", Some("<" + r.to + ">")),
     Entry("Subject", Some(if r.kind.Failed? then "Delivery Status Notification (Failure)"
                           else if r.kind.Delayed? then "Delivery Status Notification (Delay)"
                           else "Delivery Status Notification (Relayed)"))]
  }

  function ReferenceEntries(r: Report): seq<Entry> {
    [Entry("Message-ID", if r.messageID == "" then None else Some("<" + r.messageID + ">")),
     Entry("References",
           if r.originalID == "" then None else Some("<" + r.originalID + "@" + r.reportingMTA + ">"))]
  }

  function TypeEntries(): seq<Entry> {
    [Entry("Auto-Submitted", Some("auto-replied")),
     Entry("MIME-Version", Some("1.0")),
     Entry("Content-Type", Some("multipart/report; report-type=delivery-status;\r\n\tboundary=\"" + BOUNDARY + "\""))]
  }

  /** What the notification says of itself: where it comes from and goes to, what it is about, which message it
      answers, and that no machine should answer it. */
  function TopEntries(r: Report): seq<Entry> { TraceEntries(r) + ReferenceEntries(r) + TypeEntries() }

  const TOP_NAMES := ["Received", "X-NGM-Gateway", "Date", "From", "To", "Subject", "Message-ID", "References",
                      "Auto-Submitted", "MIME-Version", "Content-Type"]

  lemma TopNamesOk()
    ensures forall k :: 0 <= k < 11 ==> NameOk(TOP_NAMES[k])
  {
  }

  lemma TopNamesDiffer()
    ensures forall i, j :: 0 <= i < j < 11 ==> TOP_NAMES[i] != TOP_NAMES[j]
  {
  }

  lemma TopNamesAre(r: Report)
    ensures forall k :: 0 <= k < 11 ==> TopEntries(r)[k].name == TOP_NAMES[k]
  {
  }

  lemma TraceGiven(r: Report)
    ensures TraceFields(r) == Given(TraceEntries(r))
  {
    var es := TraceEntries(r);
    GivenAllSaid(es);
  }

  lemma ReferenceGiven(r: Report)
    ensures ReferenceFields(r) == Given(ReferenceEntries(r))
  {
    var es := ReferenceEntries(r);
    assert es == [es[0]] + [es[1]];
    GivenCat([es[0]], [es[1]]);
    GivenOne(es[0]);
    GivenOne(es[1]);
  }

  lemma {:induction false} GivenAllSaid(es: seq<Entry>)
    requires forall k :: 0 <= k < |es| ==> es[k].value.Some?
    ensures |Given(es)| == |es|
    ensures forall k :: 0 <= k < |es| ==> Given(es)[k] == Field(es[k].name, es[k].value.value)
  {
    if es != [] { GivenAllSaid(es[1..]); }
  }

  lemma TopGiven(r: Report)
    ensures TopFields(r) == Given(TopEntries(r))
  {
    TraceGiven(r);
    ReferenceGiven(r);
    GivenAllSaid(TypeEntries());
    GivenCat(TraceEntries(r), ReferenceEntries(r));
    GivenCat(TraceEntries(r) + ReferenceEntries(r), TypeEntries());
  }

  lemma TopNamed(r: Report)
    ensures NamesOk(TopEntries(r))
  {
    TopNamesOk();
    TopNamesDiffer();
    TopNamesAre(r);
    NamedOk(TopEntries(r), TOP_NAMES);
  }

  /** The notification's header tells it, whatever follows. */
  lemma TopIsTold(r: Report, rest: Bytes)
    ensures TellsAll(Fields(TopText(r) + rest), TopEntries(r))
  {
    TopIsReadBack(r, rest);
    TopGiven(r);
    TopNamed(r);
    FindsAll(TopEntries(r), TopFields(r));
  }
}
