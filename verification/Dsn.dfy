/**
  Delivery status notifications (mailgw-go/internal/dsn/dsn.go): the writer of header lines, the
  notification's own header block, and the machine-readable part.

  Dates are parameters, already formatted; where the source has a zero time there is None.
 */
module Dsn {
  import opened HeaderFields
  import opened Options
  import Text
  import Xtext

  const CRLF := "\r\n"
  const FOLD := "\r\n\t"
  const BOUNDARY := "=_mailgw_dsn_boundary_ac2f19d0_="

  datatype Kind = Failed | Delayed | Relayed {
    function Action(): string {
      match this
      case Failed => "failed"
      case Delayed => "delayed"
      case Relayed => "relayed"
    }

    function Subject(): string {
      match this
      case Failed => "Delivery Status Notification (Failure)"
      case Delayed => "Delivery Status Notification (Delay)"
      case Relayed => "Delivery Status Notification (Relayed)"
    }

    /** The class digit the Action stands for (RFC 3463). */
    function Class(): char {
      match this
      case Failed => '5'
      case Delayed => '4'
      case Relayed => '2'
    }
  }

  datatype Rcpt = Rcpt(addr: string, origAddr: seq<Xtext.Byte>, origType: string, status: string,
                       diagnostic: string, remoteMTA: string, lastAttempt: Option<string>)

  datatype Report = Report(reportingMTA: string, sender: string, to: string, kind: Kind,
                           originalID: string, envelopeID: seq<Xtext.Byte>, messageID: string,
                           arrivalDate: Option<string>, now: string, rcpts: seq<Rcpt>)

  function Clean(s: string): (r: string)
    ensures |r| == |s|
    ensures forall i :: 0 <= i < |s| ==> r[i] == (if s[i] == '\r' || s[i] == '\n' then ' ' else s[i])
  {
    if s == "" then "" else [if s[0] == '\r' || s[0] == '\n' then ' ' else s[0]] + Clean(s[1..])
  }

  /** The parts of a value between folds. */
  function Split(value: string): (lines: seq<string>)
    ensures lines != []
  {
    if |value| < 3 then [value]
    else if value[..3] == FOLD then [""] + Split(value[3..])
    else var rest := Split(value[1..]); [[value[0]] + rest[0]] + rest[1..]
  }

  function Folds(lines: seq<string>): Bytes {
    if lines == [] then [] else ("\t" + Clean(lines[0]) + CRLF) + Folds(lines[1..])
  }

  /** What a call of header writes. */
  function Header(name: string, value: string): Bytes {
    var lines := Split(value);
    Line(name, lines[0]) + Folds(lines[1..])
  }

  function Line(name: string, text: string): Bytes {
    Clean(name) + ": " + Clean(text) + CRLF
  }

  // ---------------------------------------------------------------- one call, one field

  lemma {:induction false} LineOfText(p: Bytes)
    requires '\n' !in p
    ensures LineLen(p + "\n") == |p| + 1
  {
    if p == [] {
      assert p + "\n" == "\n";
    } else {
      LineOfText(p[1..]);
      assert (p + "\n")[1..] == p[1..] + "\n";
    }
  }

  lemma {:induction false} FoldsAreFolds(lines: seq<string>)
    ensures FoldLen(Folds(lines)) == |Folds(lines)|
    ensures lines != [] ==> Folds(lines) != [] && Folds(lines)[|Folds(lines)| - 1] == '\n'
  {
    if lines != [] {
      FoldsAreFolds(lines[1..]);
      var line := "\t" + Clean(lines[0]) + CRLF;
      assert line == ("\t" + Clean(lines[0]) + "\r") + "\n";
      LineOfText("\t" + Clean(lines[0]) + "\r");
      FoldLine(line, Folds(lines[1..]));
      if lines[1..] == [] { assert Folds(lines) == line; }
    }
  }

  lemma LineIsLine(name: string, text: string)
    ensures var line := Line(name, text);
      LineLen(line) == |line| && !BlankLine(line) && line[|line| - 1] == '\n' && (PlainName(name) ==> !Blank(line[0]))
  {
    var line, most := Line(name, text), Clean(name) + ": " + Clean(text) + "\r";
    assert line == most + "\n";
    LineOfText(most);
    assert line[|name|] == ':';
  }

  /** Whatever is in the name and the value, one call of header writes exactly one field: nothing in them can
      end it early or start another. */
  lemma HeaderIsOneField(name: string, value: string)
    ensures IsField(Header(name, value)) && Header(name, value)[|Header(name, value)| - 1] == '\n'
    ensures PlainName(name) ==> !Blank(Header(name, value)[0])
  {
    var lines := Split(value);
    LineIsLine(name, lines[0]);
    FoldsAreFolds(lines[1..]);
    LineThen(Line(name, lines[0]), Folds(lines[1..]));
  }

  predicate PlainName(name: string) {
    name != "" && !Blank(name[0]) && name[0] != '\r' && name[0] != '\n'
  }

  datatype Field = Field(name: string, value: string)

  /** Fields as header writes them. */
  function Texts(fields: seq<Field>): seq<Bytes> {
    if fields == [] then [] else [Header(fields[0].name, fields[0].value)] + Texts(fields[1..])
  }

  predicate PlainNames(fields: seq<Field>) {
    forall i :: 0 <= i < |fields| ==> PlainName(fields[i].name)
  }

  /** Fields written by header, then a body: they are read back as they were written. */
  lemma {:induction false} FieldsThenBody(fields: seq<Field>, body: Bytes)
    requires PlainNames(fields) && AtBody(body)
    ensures WellSplit(Texts(fields), body)
    ensures Concat(Texts(fields)) + body != [] ==> !Blank((Concat(Texts(fields)) + body)[0])
  {
    if fields == [] {
      assert Concat(Texts(fields)) + body == body;
      if body != [] { assert body[..LineLen(body)][0] == body[0]; }
    } else {
      HeaderIsOneField(fields[0].name, fields[0].value);
      FieldsThenBody(fields[1..], body);
      assert Texts(fields)[1..] == Texts(fields[1..]);
    }
  }

  predicate OneLine(s: string) { '\r' !in s && '\n' !in s }

  lemma {:induction false} SplitOfOneLine(value: string)
    requires OneLine(value)
    ensures Split(value) == [value]
  {
    if |value| >= 3 {
      assert value[..3][0] == value[0];
      SplitOfOneLine(value[1..]);
      assert value == [value[0]] + value[1..];
    }
  }

  /** A value with no line break in it stands in its field unchanged. */
  lemma HeaderOfOneLine(name: string, value: string)
    requires OneLine(name) && OneLine(value)
    ensures Header(name, value) == name + ": " + value + CRLF
  {
    SplitOfOneLine(value);
    assert Clean(name) == name && Clean(value) == value;
    assert Line(name, value) + [] == Line(name, value);
  }

  lemma CleanIsOneLine(s: string)
    ensures OneLine(Clean(s)) && (OneLine(s) <==> Clean(s) == s)
  {
  }

  // ---------------------------------------------------------------- the fields of a report

  function Diagnostic(s: string): (r: string) {
    var t := Clean(Text.Trim(s));
    if |t| >= 3 && IsDigit(t[0]) && IsDigit(t[1]) && IsDigit(t[2]) then "smtp; " + t else "X-Local; " + t
  }

  predicate IsDigit(c: char) { '0' <= c <= '9' }

  function Status(s: string, k: Kind): string {
    var t := Clean(Text.Trim(s));
    if t == "" then [k.Class()] + ".0.0"
    else if t[0] != k.Class() && t[0] in {'2', '4', '5'} then [k.Class()] + t[1..]
    else t
  }

  /** The status agrees with the Action exactly when none was given or its class is one the standard knows;
      everything but the class stays as given. */
  lemma StatusAgreesWithAction(s: string, k: Kind)
    ensures var t := Text.Trim(s);
      && Status(s, k) != ""
      && (Status(s, k)[0] == (if k.Failed? then '5' else if k.Delayed? then '4' else '2') <==>
            t == "" || t[0] in {'2', '4', '5'})
      && (t == "" ==> Status(s, k)[1..] == ".0.0")
      && (t != "" ==> Status(s, k)[1..] == Clean(t)[1..] && |Status(s, k)| == |t|)
  {
  }

  function Maybe(name: string, value: string): (f: seq<Field>)
    ensures |f| <= 1 && (|f| == 1 ==> f[0].name == name)
  {
    if value == "" then [] else [Field(name, value)]
  }

  function MessageFields(r: Report): seq<Field> {
    [Field("Reporting-MTA", "dns; " + Clean(r.reportingMTA))] +
    Maybe("Original-Envelope-Id", Xtext.Encode(r.envelopeID)) +
    Maybe("X-NGM-Original-Envelope", Clean(r.originalID)) +
    (if r.arrivalDate.None? then [] else [Field("Arrival-Date", r.arrivalDate.value)])
  }

  function OrigType(t: string): string { if Text.Lower(t) == "" then "rfc822" else Text.Lower(t) }

  function OriginalField(rc: Rcpt): seq<Field> {
    if rc.origAddr == [] then []
    else [Field("Original-Recipient", Clean(OrigType(rc.origType)) + "; " + Xtext.Encode(rc.origAddr))]
  }

  function RequiredFields(rc: Rcpt, kind: Kind): seq<Field> {
    [Field("Final-Recipient", "rfc822; " + Clean(rc.addr)),
     Field("Action", kind.Action()),
     Field("Status", Status(rc.status, kind))]
  }

  function ReasonFields(rc: Rcpt): seq<Field> {
    (if rc.remoteMTA == "" then [] else [Field("Remote-MTA", "dns; " + Clean(rc.remoteMTA))]) +
    (if rc.diagnostic == "" then [] else [Field("Diagnostic-Code", Diagnostic(rc.diagnostic))])
  }

  function DateField(rc: Rcpt, now: string): seq<Field> {
    [Field("Last-Attempt-Date", if rc.lastAttempt.Some? then rc.lastAttempt.value else now)]
  }

  function RcptFields(rc: Rcpt, kind: Kind, now: string): seq<Field> {
    OriginalField(rc) + RequiredFields(rc, kind) + ReasonFields(rc) + DateField(rc, now)
  }

  // ---------------------------------------------------------------- the part as a reader sees it

  /** Reading a message/delivery-status part: groups of fields with blank lines between them (section 2.1 of
      RFC 3464). */
  function Blocks(s: Bytes): seq<seq<Bytes>>
    decreases |s|
  {
    if s == [] then []
    else
      var b := Body(s);
      [Fields(s)] + (if b == [] then [] else Blocks(b[LineLen(b)..]))
  }

  /** Groups of fields, each with a blank line after it. */
  function GroupsText(groups: seq<seq<Field>>): Bytes {
    if groups == [] then [] else Concat(Texts(groups[0])) + (CRLF + GroupsText(groups[1..]))
  }

  function AllTexts(groups: seq<seq<Field>>): (t: seq<seq<Bytes>>)
    ensures |t| == |groups| && forall i :: 0 <= i < |groups| ==> t[i] == Texts(groups[i])
  {
    seq(|groups|, i requires 0 <= i < |groups| => Texts(groups[i]))
  }

  predicate GroupOk(group: seq<Field>) { group != [] && PlainNames(group) }

  function RcptGroups(rcpts: seq<Rcpt>, kind: Kind, now: string): (g: seq<seq<Field>>)
    ensures |g| == |rcpts| && forall i :: 0 <= i < |rcpts| ==> g[i] == RcptFields(rcpts[i], kind, now)
  {
    seq(|rcpts|, i requires 0 <= i < |rcpts| => RcptFields(rcpts[i], kind, now))
  }

  /** What a report has to say: one group about the message, then one for each recipient. */
  function Groups(r: Report): seq<seq<Field>> {
    [MessageFields(r)] + RcptGroups(r.rcpts, r.kind, r.now)
  }

  /** What writeStatus writes after the part's own header. */
  function StatusText(r: Report): Bytes { GroupsText(Groups(r)) }

  lemma BlankLineAhead(t: Bytes)
    ensures AtBody(CRLF + t) && LineLen(CRLF + t) == 2 && (CRLF + t)[2..] == t
  {
    assert (CRLF + t)[1..] == "\n" + t;
  }

  /** A group of fields, then a blank line and the rest: the group is read as it was written. */
  lemma OneBlock(fields: seq<Field>, rest: Bytes)
    requires PlainNames(fields) && fields != []
    ensures Blocks(Concat(Texts(fields)) + (CRLF + rest)) == [Texts(fields)] + Blocks(rest)
  {
    BlankLineAhead(rest);
    FieldsThenBody(fields, CRLF + rest);
    SplitIsUnique(Texts(fields), CRLF + rest);
  }

  lemma {:induction false} GroupsAreRead(groups: seq<seq<Field>>)
    requires forall i :: 0 <= i < |groups| ==> GroupOk(groups[i])
    ensures Blocks(GroupsText(groups)) == AllTexts(groups)
  {
    if groups != [] {
      GroupsAreRead(groups[1..]);
      assert GroupOk(groups[0]);
      OneBlock(groups[0], GroupsText(groups[1..]));
      assert AllTexts(groups) == [Texts(groups[0])] + AllTexts(groups[1..]);
    }
  }

  lemma MessageGroupOk(r: Report)
    ensures GroupOk(MessageFields(r))
  {
  }

  lemma PlainCat(a: seq<Field>, b: seq<Field>)
    requires PlainNames(a) && PlainNames(b)
    ensures PlainNames(a + b)
  {
  }

  lemma RcptNames(rc: Rcpt, kind: Kind, now: string)
    ensures PlainNames(OriginalField(rc)) && PlainNames(RequiredFields(rc, kind)) && RequiredFields(rc, kind) != []
    ensures PlainNames(ReasonFields(rc)) && PlainNames(DateField(rc, now))
  {
  }

  lemma RcptGroupOk(rc: Rcpt, kind: Kind, now: string)
    ensures GroupOk(RcptFields(rc, kind, now))
  {
    RcptNames(rc, kind, now);
    var a, b, c, d := OriginalField(rc), RequiredFields(rc, kind), ReasonFields(rc), DateField(rc, now);
    PlainCat(a, b);
    PlainCat(a + b, c);
    PlainCat(a + b + c, d);
  }

  lemma GroupsOk(r: Report)
    ensures forall i :: 0 <= i < |Groups(r)| ==> GroupOk(Groups(r)[i])
  {
    MessageGroupOk(r);
    forall i | 0 <= i < |r.rcpts| ensures GroupOk(RcptGroups(r.rcpts, r.kind, r.now)[i]) {
      RcptGroupOk(r.rcpts[i], r.kind, r.now);
    }
  }

  /** For every report, whatever its strings hold: the delivery-status part is read as one block for the
      message and then one block for each recipient, in order, each with exactly the fields meant. */
  lemma StatusIsReadBack(r: Report)
    ensures var blocks := Blocks(StatusText(r));
      && |blocks| == 1 + |r.rcpts|
      && blocks[0] == Texts(MessageFields(r))
      && (forall i :: 0 <= i < |r.rcpts| ==> blocks[1 + i] == Texts(RcptFields(r.rcpts[i], r.kind, r.now)))
  {
    GroupsOk(r);
    GroupsAreRead(Groups(r));
    forall i | 0 <= i < |r.rcpts| ensures Groups(r)[1 + i] == RcptFields(r.rcpts[i], r.kind, r.now) { }
  }

  // ---------------------------------------------------------------- the notification's own header

  function TraceFields(r: Report): seq<Field> {
    [Field("Received", "by " + r.reportingMTA + " (mailgw-go) id " + r.originalID + "; " + r.now),
     Field("X-NGM-Gateway", "go"),
     Field("Date", r.now),
     Field("From", "Mail Delivery System <" + r.sender + ">"),
     Field("To", "<" + r.to + ">"),
     Field("Subject", r.kind.Subject())]
  }

  function ReferenceFields(r: Report): seq<Field> {
    (if r.messageID == "" then [] else [Field("Message-ID", "<" + r.messageID + ">")]) +
    (if r.originalID == "" then [] else [Field("References", "<" + r.originalID + "@" + r.reportingMTA + ">")])
  }

  function TypeFields(): seq<Field> {
    [Field("Auto-Submitted", "auto-replied"),
     Field("MIME-Version", "1.0"),
     Field("Content-Type", "multipart/report; report-type=delivery-status;\r\n\tboundary=\"" + BOUNDARY + "\"")]
  }

  function TopFields(r: Report): seq<Field> { TraceFields(r) + ReferenceFields(r) + TypeFields() }

  const PREAMBLE := "This is a MIME-encapsulated message.\r\n\r\n"

  function TopText(r: Report): Bytes { Concat(Texts(TopFields(r))) + (CRLF + PREAMBLE) }

  lemma TopNames(r: Report)
    ensures PlainNames(TraceFields(r)) && PlainNames(ReferenceFields(r)) && PlainNames(TypeFields())
    ensures TraceFields(r) != []
  {
  }

  lemma TopGroupOk(r: Report)
    ensures GroupOk(TopFields(r))
  {
    TopNames(r);
    PlainCat(TraceFields(r), ReferenceFields(r));
    PlainCat(TraceFields(r) + ReferenceFields(r), TypeFields());
  }

  lemma GroupThenBody(fields: seq<Field>, rest: Bytes)
    requires GroupOk(fields)
    ensures Fields(Concat(Texts(fields)) + (CRLF + rest)) == Texts(fields)
  {
    BlankLineAhead(rest);
    FieldsThenBody(fields, CRLF + rest);
    SplitIsUnique(Texts(fields), CRLF + rest);
  }

  /** Whatever the addresses and identifiers hold, and whatever follows, the notification's header is read as
      exactly the fields meant. */
  lemma TopIsReadBack(r: Report, rest: Bytes)
    ensures Fields(TopText(r) + rest) == Texts(TopFields(r))
  {
    TopGroupOk(r);
    GroupThenBody(TopFields(r), PREAMBLE + rest);
    Assoc(Concat(Texts(TopFields(r))), CRLF + PREAMBLE, rest);
    Assoc(CRLF, PREAMBLE, rest);
  }

  // ---------------------------------------------------------------- the writers

  class Builder {
    var text: Bytes

    constructor ()
      ensures text == []
    {
      text := [];
    }

    method WriteString(s: string)
      modifies this
      ensures text == old(text) + s
    {
      text := text + s;
    }
  }

  /** The lines of a value as they are written: folds between them, then the end of the line. */
  function Written(lines: seq<string>): Bytes {
    if lines == [] then CRLF else FOLD + (Clean(lines[0]) + Written(lines[1..]))
  }

  lemma Regroup(c: Bytes, folds: Bytes)
    ensures FOLD + (c + (CRLF + folds)) == CRLF + (("\t" + c + CRLF) + folds)
  {
  }

  lemma {:induction false} WrittenIsFolds(lines: seq<string>)
    ensures Written(lines) == CRLF + Folds(lines)
  {
    if lines == [] {
      assert CRLF + [] == CRLF;
    } else {
      WrittenIsFolds(lines[1..]);
      Regroup(Clean(lines[0]), Folds(lines[1..]));
    }
  }

  lemma Reassoc(was: Bytes, name: Bytes, text: Bytes, folds: Bytes)
    ensures was + name + ": " + text + (CRLF + folds) == was + ((name + ": " + text + CRLF) + folds)
  {
  }

  lemma Shift(t: Bytes, a: Bytes, b: Bytes, tail: Bytes)
    ensures t + (a + (b + tail)) == ((t + a) + b) + tail
  {
  }

  lemma WrittenAt(lines: seq<string>, i: nat, t: Bytes)
    requires i < |lines|
    ensures t + Written(lines[i..]) == ((t + FOLD) + Clean(lines[i])) + Written(lines[i + 1..])
  {
    assert lines[i..][1..] == lines[i + 1..];
    Shift(t, FOLD, Clean(lines[i]), Written(lines[i + 1..]));
  }

  method WriteFolds(b: Builder, lines: seq<string>)
    modifies b
    ensures b.text == old(b.text) + Written(lines)
  {
    ghost var goal := b.text + Written(lines);
    assert lines[0..] == lines;
    for i := 0 to |lines|
      invariant b.text + Written(lines[i..]) == goal
    {
      WrittenAt(lines, i, b.text);
      b.WriteString(FOLD);
      b.WriteString(Clean(lines[i]));
    }
    b.WriteString(CRLF);
  }

  method WriteHeader(b: Builder, name: string, value: string)
    modifies b
    ensures b.text == old(b.text) + Header(name, value)
  {
    ghost var was := b.text;
    var lines := Split(value);
    b.WriteString(Clean(name));
    b.WriteString(": ");
    b.WriteString(Clean(lines[0]));
    WriteFolds(b, lines[1..]);
    WrittenIsFolds(lines[1..]);
    Reassoc(was, Clean(name), Clean(lines[0]), Folds(lines[1..]));
  }

  lemma TextsAt(fields: seq<Field>, i: nat, t: Bytes)
    requires i < |fields|
    ensures t + Concat(Texts(fields[i..])) ==
            (t + Header(fields[i].name, fields[i].value)) + Concat(Texts(fields[i + 1..]))
  {
    var text, rest := Header(fields[i].name, fields[i].value), Texts(fields[i + 1..]);
    assert fields[i..][1..] == fields[i + 1..];
    ConcatCons(text, rest);
    Assoc(t, text, Concat(rest));
  }

  /** The calls of header for a list of fields, one after another. */
  method WriteFields(b: Builder, fields: seq<Field>)
    modifies b
    ensures b.text == old(b.text) + Concat(Texts(fields))
  {
    ghost var goal := b.text + Concat(Texts(fields));
    assert fields[0..] == fields;
    for i := 0 to |fields|
      invariant b.text + Concat(Texts(fields[i..])) == goal
    {
      TextsAt(fields, i, b.text);
      WriteHeader(b, fields[i].name, fields[i].value);
    }
    assert b.text + [] == b.text;
  }

  function Tail(groups: seq<seq<Field>>): Bytes { CRLF + GroupsText(groups) }

  lemma TailAt(groups: seq<seq<Field>>, i: nat, t: Bytes)
    requires i < |groups|
    ensures t + Tail(groups[i..]) == ((t + CRLF) + Concat(Texts(groups[i]))) + Tail(groups[i + 1..])
  {
    assert groups[i..][1..] == groups[i + 1..];
    Shift(t, CRLF, Concat(Texts(groups[i])), Tail(groups[i + 1..]));
  }

  lemma GroupsCons(first: seq<Field>, groups: seq<seq<Field>>)
    ensures GroupsText([first] + groups) == Concat(Texts(first)) + Tail(groups)
  {
    assert ([first] + groups)[1..] == groups;
  }

  /** Groups written with a blank line before each but the first, and one at the end. */
  method WriteGroups(b: Builder, first: seq<Field>, groups: seq<seq<Field>>)
    modifies b
    ensures b.text == old(b.text) + GroupsText([first] + groups)
  {
    GroupsCons(first, groups);
    Assoc(b.text, Concat(Texts(first)), Tail(groups));
    WriteFields(b, first);
    WriteRest(b, groups);
  }

  method WriteRest(b: Builder, groups: seq<seq<Field>>)
    modifies b
    ensures b.text == old(b.text) + Tail(groups)
  {
    ghost var goal := b.text + Tail(groups);
    assert groups[0..] == groups;
    for i := 0 to |groups|
      invariant b.text + Tail(groups[i..]) == goal
    {
      TailAt(groups, i, b.text);
      b.WriteString(CRLF);
      WriteFields(b, groups[i]);
    }
    assert Tail(groups[|groups|..]) == CRLF;
    b.WriteString(CRLF);
  }

  /** writeStatus, below the part's own header. */
  method WriteStatus(b: Builder, r: Report)
    modifies b
    ensures b.text == old(b.text) + StatusText(r)
  {
    WriteGroups(b, MessageFields(r), RcptGroups(r.rcpts, r.kind, r.now));
  }

  /** writeTop */
  method WriteTop(b: Builder, r: Report)
    modifies b
    ensures b.text == old(b.text) + TopText(r)
  {
    Assoc(b.text, Concat(Texts(TopFields(r))), CRLF + PREAMBLE);
    ghost var was := b.text;
    WriteFields(b, TopFields(r));
    Assoc(b.text, CRLF, PREAMBLE);
    b.WriteString(CRLF);
    b.WriteString(PREAMBLE);
  }
}
