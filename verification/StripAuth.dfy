/**
  Removing forged Authentication-Results fields while the message streams through
  (mailgw-go/internal/msgauth/results.go).
 */
module StripAuth {
  import opened HeaderFields
  import Options
  import Text

  const HEADER_AUTH_RESULTS := "Authentication-Results"

  /** The start of a field's value, as far as the authserv-id is looked for. */
  function Head(value: Bytes): Bytes {
    var head := Text.Trim(value[..Text.IndexAny(value, {';'})]);
    head[..Text.IndexAny(head, {' ', '\t', '\r', '\n'})]
  }

  /** `field` is called `header` and claims the authserv-id `id`. */
  predicate Claims(field: Bytes, header: string, id: string) {
    var colon := Text.IndexAny(field, {':'});
    colon < |field| &&
    Text.SameFold(Text.Trim(field[..colon]), header) &&
    Text.SameFold(Text.TrimSuffix(Head(field[colon + 1..]), '.'), Text.TrimSuffix(id, '.'))
  }

  predicate Ours(field: Bytes, id: string) { Claims(field, HEADER_AUTH_RESULTS, id) }

  function Id(authservID: string): string { Text.Lower(Text.Trim(authservID)) }

  /** What StripAuthResults lets through. */
  function Strip(message: Bytes, authservID: string): Bytes {
    var id := Id(authservID);
    if id == "" then message else Filter(message, (f: Bytes) => Ours(f, id))
  }

  // ---------------------------------------------------------------- which fields are ours

  /** A first token: no space in it, no semicolon. */
  predicate Token(t: string) {
    t != "" && forall i :: 0 <= i < |t| ==> !Text.Space(t[i]) && t[i] != ';'
  }

  predicate EndsToken(rest: Bytes) {
    rest == [] || rest[0] in {' ', '\t', '\r', '\n', ';'}
  }

  lemma {:induction false} IndexAnyAt(s: string, t: string, chars: set<char>)
    requires forall i :: 0 <= i < |s| ==> s[i] !in chars
    requires t == "" || t[0] in chars
    ensures Text.IndexAny(s + t, chars) == |s|
  {
    if s == "" {
      assert s + t == t;
    } else {
      IndexAnyAt(s[1..], t, chars);
      assert (s + t)[1..] == s[1..] + t;
    }
  }

  lemma TrimKeepsHead(s: string, t: string)
    requires s != "" && !Text.Space(s[0]) && !Text.Space(s[|s| - 1])
    ensures |s| <= |Text.TrimRight(s + t)| && Text.TrimRight(s + t) <= s + t
    decreases |t|
  {
    if t != "" && Text.Space(t[|t| - 1]) {
      TrimKeepsHead(s, t[..|t| - 1]);
      assert (s + t)[..|s + t| - 1] == s + t[..|t| - 1];
    }
  }

  /** The authserv-id read from a value is its first token, wherever the field was folded. */
  lemma HeadIsFirstToken(blanks: Bytes, token: string, rest: Bytes)
    requires Text.AllSpace(blanks) && Token(token) && EndsToken(rest)
    ensures Head(blanks + token + rest) == token
  {
    var value := blanks + token + rest;
    var k := Text.IndexAny(rest, {';'});
    assert value == (blanks + token + rest[..k]) + rest[k..];
    assert forall i :: 0 <= i < |blanks| ==> blanks[i] != ';';
    IndexAnyAt(blanks + token + rest[..k], rest[k..], {';'});
    var cut := blanks + token + rest[..k];
    assert value[..|cut|] == cut;
    assert cut == blanks + (token + rest[..k]);
    Text.TrimLeftPadded(blanks, token + rest[..k]);
    assert Text.TrimLeft(token + rest[..k]) == token + rest[..k];
    TrimKeepsHead(token, rest[..k]);
    var head := Text.TrimRight(token + rest[..k]);
    FirstOfHead(token, rest, k, head);
  }

  /** Up to the first blank, a head is its token. */
  lemma FirstOfHead(token: string, rest: Bytes, k: nat, head: string)
    requires Token(token) && EndsToken(rest) && k <= |rest|
    requires |token| <= |head| && head <= token + rest[..k]
    requires k < |rest| ==> rest[k] == ';'
    requires forall i :: 0 <= i < k ==> rest[i] != ';'
    ensures head[..Text.IndexAny(head, {' ', '\t', '\r', '\n'})] == token
  {
    var tail := head[|token|..];
    assert head == token + tail;
    if tail != "" { assert tail[0] == rest[0]; }
    IndexAnyAt(token, tail, {' ', '\t', '\r', '\n'});
  }

  /** A field in its parts: a name with blanks around it, a colon, and a value with its first token. */
  datatype Parts = Parts(before: Bytes, name: string, after: Bytes, blanks: Bytes, token: string, rest: Bytes)
  {
    function Field(): Bytes { before + name + after + ":" + (blanks + token + rest) }
  }

  ghost predicate Apart(f: Parts) {
    Text.AllBlank(f.before) && Text.AllBlank(f.after) && Text.AllBlank(f.blanks) && Text.Unpadded(f.name) &&
    ':' !in f.name && f.token != "" &&
    (forall i :: 0 <= i < |f.token| ==> f.token[i] !in Text.BLANKS && f.token[i] != ';') &&
    (f.rest == [] || f.rest[0] in " \t\r\n;")
  }

  lemma FieldParts(f: Parts)
    requires Apart(f)
    ensures ':' !in f.before + f.name + f.after && Text.Trim(f.before + f.name + f.after) == f.name
    ensures Text.AllSpace(f.blanks) && Token(f.token) && EndsToken(f.rest)
  {
    Text.TrimPadded(f.before, f.name, f.after);
    Text.AllSpaceIsBlank(f.blanks);
    forall i | 0 <= i < |f.token| ensures !Text.Space(f.token[i]) { Text.SpaceIsBlank(f.token[i]); }
    if f.rest != [] { FirstOf(f.rest[0]); }
  }

  lemma FirstOf(c: char)
    requires c in " \t\r\n;"
    ensures c in {' ', '\t', '\r', '\n', ';'}
  {
  }

  /** A field is ours exactly when its name is spelt Authentication-Results, in any capitals and with any blanks
      around it, and its first token our authserv-id, in any capitals and with a final dot or without one on either
      side: whatever the folds, a version or a method after it. */
  lemma OursReadsFirstToken(f: Parts, core: string, id: string, idCore: string)
    requires Apart(f) && Text.Undotted(f.token, core) && Text.Undotted(id, idCore)
    ensures Ours(f.Field(), id) <==>
              Text.Spells(f.name, "Authentication-Results") && Text.Spells(core, idCore)
  {
    FieldParts(f);
    CutAtColon(f.before + f.name + f.after, f.blanks + f.token + f.rest, HEADER_AUTH_RESULTS, id);
    TokenOf(f, core);
    Text.UndottedIsTrim(id, idCore);
    Text.FoldIffSpells(f.name, HEADER_AUTH_RESULTS);
    Text.FoldIffSpells(core, idCore);
  }

  lemma TokenOf(f: Parts, core: string)
    requires Apart(f) && Text.Undotted(f.token, core)
    ensures Text.TrimSuffix(Head(f.blanks + f.token + f.rest), '.') == core
  {
    FieldParts(f);
    HeadIsFirstToken(f.blanks, f.token, f.rest);
    Text.UndottedIsTrim(f.token, core);
  }

  /** The identifier as it is configured: blanks around it and capitals do not matter. */
  lemma IdIs(before: string, id: string, after: string, idCore: string) returns (core: string)
    requires Text.AllBlank(before) && Text.AllBlank(after) && Text.Unpadded(id) && Text.Undotted(id, idCore)
    ensures Id(before + id + after) == Text.Lower(id) && Text.Undotted(Text.Lower(id), core)
    ensures forall s :: Text.Spells(s, core) <==> Text.Spells(s, idCore)
  {
    Text.TrimPadded(before, id, after);
    core := Text.Lower(idCore);
    LowerUndotted(id, idCore);
    forall s ensures Text.Spells(s, core) <==> Text.Spells(s, idCore) {
      Text.FoldIffSpells(s, core);
      Text.FoldIffSpells(s, idCore);
      Text.LowerTwice(idCore);
    }
  }

  lemma LowerUndotted(id: string, idCore: string)
    requires Text.Undotted(id, idCore)
    ensures Text.Undotted(Text.Lower(id), Text.Lower(idCore))
  {
    Text.LowerIsPointwise(id);
    Text.LowerIsPointwise(idCore);
    if id == idCore + "." { assert Text.Lower(id) == Text.Lower(idCore) + "."; }
  }

  lemma CutAtColon(name: Bytes, value: Bytes, header: string, id: string)
    requires ':' !in name
    ensures Claims(name + ":" + value, header, id) <==>
              Text.SameFold(Text.Trim(name), header) &&
              Text.SameFold(Text.TrimSuffix(Head(value), '.'), Text.TrimSuffix(id, '.'))
  {
    var field := name + ":" + value;
    assert field == name + (":" + value);
    IndexAnyAt(name, ":" + value, {':'});
    assert field[..|name|] == name && field[|name| + 1..] == value;
  }

  // ---------------------------------------------------------------- what the standard lets a claim look like

  /** Characters that end a token of the standard, other than blanks and the semicolon. */
  predicate Special(c: char) { c == '(' || c == '"' }

  predicate PlainToken(t: string) { Token(t) && forall i :: 0 <= i < |t| ==> !Special(t[i]) }

  /** What a quoted string stands for, given what is between its quotes. */
  function Unquoted(q: string): Options.Option<string> {
    if q == "" then Options.Some("")
    else if q[0] == '"' || (q[0] == '\\' && |q| == 1) then Options.None
    else
      var n := if q[0] == '\\' then 2 else 1;
      match Unquoted(q[n..])
      case None => Options.None
      case Some(more) => Options.Some([q[n - 1]] + more)
  }

  /** A value that claims `token`, by section 2.2 of RFC 7601: perhaps a comment first, the identifier bare or
      in quotes (as `quoted`), then blanks, a semicolon, a comment, or nothing. */
  datatype Form = Form(
    blanks: Bytes, comment: Options.Option<Bytes>, more: Bytes, quoted: Options.Option<string>, token: string,
    rest: Bytes)

  predicate Legal(f: Form) {
    Text.AllSpace(f.blanks) && Text.AllSpace(f.more) && PlainToken(f.token) &&
    (f.rest == [] || f.rest[0] == '(' || EndsToken(f.rest)) &&
    (f.comment.Some? ==> f.comment.value != [] && f.comment.value[0] == '(') &&
    (f.quoted.Some? ==> Unquoted(f.quoted.value) == Options.Some(f.token))
  }

  function Identifier(f: Form): Bytes {
    match f.quoted
    case None => f.token
    case Some(q) => "\"" + q + "\""
  }

  function Value(f: Form): Bytes {
    f.blanks + (match f.comment { case None => [] case Some(c) => c + f.more }) + Identifier(f) + f.rest
  }

  /** What a value starts with, up to a blank or a semicolon, is in its head. */
  lemma HeadStarts(blanks: Bytes, lead: string, rest: Bytes)
    requires Text.AllSpace(blanks) && Token(lead)
    ensures lead <= Head(blanks + lead + rest)
  {
    var value := blanks + lead + rest;
    var k := Text.IndexAny(rest, {';'});
    var cut := blanks + lead + rest[..k];
    assert value == cut + rest[k..];
    IndexAnyAt(cut, rest[k..], {';'});
    assert value[..|cut|] == cut && cut == blanks + (lead + rest[..k]);
    Text.TrimLeftPadded(blanks, lead + rest[..k]);
    assert Text.TrimLeft(lead + rest[..k]) == lead + rest[..k];
    TrimKeepsHead(lead, rest[..k]);
    var head := Text.TrimRight(lead + rest[..k]);
    assert head == lead + head[|lead|..];
    IndexAnyPast(lead, head[|lead|..], {' ', '\t', '\r', '\n'});
  }

  lemma {:induction false} IndexAnyPast(s: string, t: string, chars: set<char>)
    requires forall i :: 0 <= i < |s| ==> s[i] !in chars
    ensures |s| <= Text.IndexAny(s + t, chars)
  {
    if s != "" {
      IndexAnyPast(s[1..], t, chars);
      assert (s + t)[1..] == s[1..] + t;
    }
  }

  /** A head with a parenthesis or a quote in it is nobody's token. */
  lemma SpecialIsNotOurs(head: string, lead: string, id: string)
    requires lead <= head && lead != "" && Special(lead[|lead| - 1])
    requires forall i :: 0 <= i < |id| ==> !Special(id[i])
    ensures !Text.SameFold(Text.TrimSuffix(head, '.'), Text.TrimSuffix(id, '.'))
  {
    var a, b, i := Text.TrimSuffix(head, '.'), Text.TrimSuffix(id, '.'), |lead| - 1;
    assert head[i] == lead[i] && i < |a| && a[i] == head[i];
    Text.LowerIsPointwise(a);
    Text.LowerIsPointwise(b);
    if |b| == |a| {
      assert b[i] == id[i];
      assert Text.Lower(a)[i] == a[i];
    }
  }

  /** An identifier that a plain token claims is plain. */
  lemma ClaimedIsPlain(token: string, id: string)
    requires PlainToken(token) && Text.SameFold(Text.TrimSuffix(token, '.'), Text.TrimSuffix(id, '.'))
    ensures forall i :: 0 <= i < |id| ==> !Special(id[i])
  {
    var a, b := Text.TrimSuffix(token, '.'), Text.TrimSuffix(id, '.');
    Text.LowerIsPointwise(a);
    Text.LowerIsPointwise(b);
    forall i | 0 <= i < |b| ensures !Special(b[i]) { assert Text.Lower(a)[i] == Text.Lower(b)[i]; }
    forall i | 0 <= i < |id| ensures !Special(id[i]) { if i < |b| { assert id[i] == b[i]; } }
  }

  /** Whether the head of a value that claims our identifier is read as such. */
  lemma HeadClaims(f: Form, id: string)
    requires Legal(f) && Text.SameFold(Text.TrimSuffix(f.token, '.'), Text.TrimSuffix(id, '.'))
    ensures Text.SameFold(Text.TrimSuffix(Head(Value(f)), '.'), Text.TrimSuffix(id, '.')) <==> Bare(f)
  {
    ClaimedIsPlain(f.token, id);
    if f.comment.Some? {
      var lead, rest := ValueAfterComment(f);
      Evades(f.blanks, lead, rest, id);
    } else if f.quoted.Some? {
      var lead, rest := ValueInQuotes(f);
      Evades(f.blanks, lead, rest, id);
    } else if f.rest != [] && f.rest[0] == '(' {
      var lead, rest := ValueBeforeComment(f);
      Evades(f.blanks, lead, rest, id);
    } else {
      BareValue(f);
      HeadIsFirstToken(f.blanks, f.token, f.rest);
    }
  }

  lemma ValueInQuotes(f: Form) returns (lead: Bytes, rest: Bytes)
    requires Legal(f) && f.comment.None? && f.quoted.Some?
    ensures lead == "\"" && Value(f) == f.blanks + lead + rest
  {
    lead, rest := "\"", f.quoted.value + "\"" + f.rest;
    Regroup4(f.blanks, "\"", f.quoted.value, "\"", f.rest);
  }

  lemma ValueBeforeComment(f: Form) returns (lead: Bytes, rest: Bytes)
    requires Legal(f) && f.comment.None? && f.quoted.None? && f.rest != [] && f.rest[0] == '('
    ensures lead == f.token + "(" && Value(f) == f.blanks + lead + rest
    ensures Token(lead) && Special(lead[|lead| - 1])
  {
    lead, rest := f.token + "(", f.rest[1..];
    assert f.blanks + [] + f.token + f.rest == f.blanks + lead + rest;
  }

  lemma BareValue(f: Form)
    requires f.comment.None? && f.quoted.None?
    ensures Value(f) == f.blanks + f.token + f.rest
  {
    assert f.blanks + [] == f.blanks;
  }

  lemma Regroup4(a: Bytes, q: Bytes, b: Bytes, r: Bytes, c: Bytes)
    ensures a + [] + (q + b + r) + c == a + q + (b + r + c)
  {
  }

  lemma ValueAfterComment(f: Form) returns (lead: Bytes, rest: Bytes)
    requires Legal(f) && f.comment.Some?
    ensures lead == "(" && Value(f) == f.blanks + lead + rest
  {
    var c := f.comment.value;
    lead, rest := "(", c[1..] + f.more + Identifier(f) + f.rest;
    assert c == lead + c[1..];
    assert f.blanks + (c + f.more) + Identifier(f) + f.rest == f.blanks + lead + rest;
  }

  /** The identifier stands bare, with no comment before it and none right behind it. */
  predicate Bare(f: Form) {
    f.comment.None? && f.quoted.None? && (f.rest == [] || f.rest[0] != '(')
  }

  /** Of the fields the standard lets claim our identifier, exactly those are stripped in which it stands bare. */
  lemma StrippedIffBare(name: Bytes, f: Form, id: string)
    requires ':' !in name && Text.SameFold(Text.Trim(name), HEADER_AUTH_RESULTS)
    requires Legal(f) && Text.SameFold(Text.TrimSuffix(f.token, '.'), Text.TrimSuffix(id, '.'))
    ensures Ours(name + ":" + Value(f), id) <==> Bare(f)
  {
    CutAtColon(name, Value(f), HEADER_AUTH_RESULTS, id);
    HeadClaims(f, id);
  }

  lemma Evades(blanks: Bytes, lead: string, rest: Bytes, id: string)
    requires Text.AllSpace(blanks) && Token(lead) && Special(lead[|lead| - 1])
    requires forall i :: 0 <= i < |id| ==> !Special(id[i])
    ensures !Text.SameFold(Text.TrimSuffix(Head(blanks + lead + rest), '.'), Text.TrimSuffix(id, '.'))
  {
    HeadStarts(blanks, lead, rest);
    SpecialIsNotOurs(Head(blanks + lead + rest), lead, id);
  }

  // ---------------------------------------------------------------- what comes out

  /** The fields that bear our authserv-id are gone, every other one is there in order, and the body is the
      same.  Reading the output again finds nothing of ours. */
  lemma StripRemovesExactlyOurs(message: Bytes, authservID: string)
    requires Id(authservID) != ""
    ensures var id := Id(authservID);
      var out := Strip(message, authservID);
      && Fields(out) == Keep(Fields(message), (f: Bytes) => Ours(f, id))
      && Body(out) == Body(message)
      && out == Concat(Fields(out)) + Body(out)
      && (forall f :: f in Fields(out) <==> f in Fields(message) && !Ours(f, id))
  {
    var mine := (f: Bytes) => Ours(f, Id(authservID));
    FilteredSplit(message, mine);
    KeepsNoneOfMine(Fields(message), mine);
    SplitIsWhole(Strip(message, authservID));
  }

  /** So of the fields with a first token, the output holds exactly those of the message that are not spelt like
      ours. */
  lemma SpeltOursIsStripped(message: Bytes, before: string, id: string, after: string, idCore: string,
                            f: Parts, core: string)
    requires Text.AllBlank(before) && Text.AllBlank(after) && Text.Unpadded(id) && id != "" && Text.Undotted(id, idCore)
    requires Apart(f) && Text.Undotted(f.token, core)
    ensures f.Field() in Fields(Strip(message, before + id + after)) <==>
              f.Field() in Fields(message) &&
              !(Text.Spells(f.name, "Authentication-Results") && Text.Spells(core, idCore))
  {
    var own := IdIs(before, id, after, idCore);
    StripRemovesExactlyOurs(message, before + id + after);
    OursReadsFirstToken(f, core, Text.Lower(id), own);
  }

  lemma StripTwice(message: Bytes, authservID: string)
    ensures Strip(Strip(message, authservID), authservID) == Strip(message, authservID)
  {
    FilterTwice(message, (f: Bytes) => Ours(f, Id(authservID)));
  }

  /** A message with no field of ours comes out byte for byte. */
  lemma StripLeavesOthersAlone(message: Bytes, authservID: string)
    requires forall f :: f in Fields(message) ==> !Ours(f, Id(authservID))
    ensures Strip(message, authservID) == message
  {
    var mine := (f: Bytes) => Ours(f, Id(authservID));
    KeepAll(Fields(message), mine);
    FilterIsKeep(message, mine);
    SplitIsWhole(message);
  }

  // ---------------------------------------------------------------- the reader

  /** What a reader with `out` ready and `src` below it will yield; `raw` is whether fields are over. */
  function Yield(out: Bytes, src: Bytes, raw: bool, mine: Bytes -> bool): Bytes {
    out + (if raw then src else Filter(src, mine))
  }

  lemma NothingBefore(s: Bytes)
    ensures [] + s == s
  {
  }

  lemma FoldStep(before: Bytes, cont: Bytes, after: Bytes)
    requires before != [] && Blank(before[0])
    requires cont == before[..LineLen(before)] && after == before[|cont|..]
    ensures before == cont + after && cont != [] && FoldLen(before) == |cont| + FoldLen(after)
    ensures cont[|cont| - 1] != '\n' ==> after == []
  {
  }

  /** Of the field at the front of `s` the part `field` is read, and `src` is still there. */
  predicate Folded(s: Bytes, field: Bytes, src: Bytes) {
    s == field + src && field != [] && |field| + FoldLen(src) == FieldLen(s)
  }

  /** One more line of it. */
  lemma FoldMore(s: Bytes, field: Bytes, before: Bytes, cont: Bytes, after: Bytes)
    requires Folded(s, field, before)
    requires before != [] && Blank(before[0])
    requires cont == before[..LineLen(before)] && after == before[|cont|..]
    ensures Folded(s, field + cont, after)
    ensures cont != [] && (field + cont)[|field + cont| - 1] == cont[|cont| - 1]
    ensures cont[|cont| - 1] != '\n' ==> after == []
  {
    FoldStep(before, cont, after);
    Assoc(field, cont, after);
  }

  lemma FirstLine(line: Bytes, src: Bytes)
    requires line != [] && !AtBody(line + src) && |line| == LineLen(line + src)
    ensures Folded(line + src, line, src)
    ensures line[|line| - 1] != '\n' ==> src == []
  {
    var s := line + src;
    assert s[|line|..] == src && s[..|line|] == line;
  }

  /** The first line of `s`, and what it leaves to give: nothing, or the body, or a field to read on. */
  lemma LineOut(s: Bytes, line: Bytes, rest: Bytes, mine: Bytes -> bool)
    requires line == s[..LineLen(s)] && rest == s[|line|..]
    ensures s == line + rest && |line| == LineLen(line + rest)
    ensures line == [] ==> rest == [] && Yield([], s, false, mine) == Yield([], rest, true, mine)
    ensures line != [] ==> s != [] && (AtBody(s) <==> BlankLine(line))
    ensures BlankLine(line) ==> Yield([], s, false, mine) == Yield(line, rest, true, mine)
  {
    assert s == line + rest;
  }

  lemma FilterStep(s: Bytes, field: Bytes, rest: Bytes, mine: Bytes -> bool)
    requires !AtBody(s) && s == field + rest && |field| == FieldLen(s)
    ensures Filter(s, mine) == (if mine(field) then [] else field) + Filter(rest, mine)
  {
    assert s[..|field|] == field && s[|field|..] == rest;
  }

  /** What a field read to its end leaves to give. */
  lemma FieldOut(s: Bytes, field: Bytes, rest: Bytes, ours: bool, done: bool, mine: Bytes -> bool)
    requires !AtBody(s) && s == field + rest && |field| == FieldLen(s) && (done ==> rest == [])
    requires ours == mine(field)
    ensures Yield([], s, false, mine) == Yield(if ours then [] else field, rest, done, mine)
  {
    FilterStep(s, field, rest, mine);
    NothingBefore(Filter(s, mine));
  }

  method CopyTo(chunk: Bytes, p: array<char>)
    requires |chunk| <= p.Length
    modifies p
    ensures p[..|chunk|] == chunk && p[|chunk|..] == old(p[|chunk|..])
  {
    forall i | 0 <= i < |chunk| { p[i] := chunk[i]; }
  }

  datatype Err = Eof | Failed(code: int)

  /** stripReader.  `src` is what the underlying reader has yet to give before it ends with `final`. */
  class StripReader {
    const mine: Bytes -> bool
    const final: Err
    var src: Bytes
    var out: Bytes
    var body: bool
    var err: Options.Option<Err>

    ghost predicate Valid()
      reads this
    {
      (err.Some? ==> src == [] && err.value == final)
    }

    /** Everything the reader will yet yield. */
    ghost function Rest(): Bytes
      reads this
    {
      Yield(out, src, body || err.Some?, mine)
    }

    constructor (source: Bytes, final: Err, mine: Bytes -> bool)
      ensures Valid() && Rest() == Filter(source, mine)
      ensures this.final == final && this.mine == mine
    {
      src, out, body, err := source, [], false, Options.None;
      this.final, this.mine := final, mine;
      new;
      NothingBefore(Filter(source, mine));
    }

    /** One line of the source; the error comes with the data it ends. */
    method ReadLine() returns (line: Bytes, e: Options.Option<Err>)
      modifies this`src
      ensures line == old(src)[..LineLen(old(src))] && src == old(src)[|line|..]
      ensures e == if line != [] && line[|line| - 1] == '\n' then Options.None else Options.Some(final)
    {
      var n := LineLen(src);
      line, src := src[..n], src[n..];
      e := if line != [] && line[|line| - 1] == '\n' then Options.None else Options.Some(final);
    }

    /** The folded lines under `line`, the first of a field. */
    method ReadFolds(line: Bytes, e0: Options.Option<Err>) returns (field: Bytes, e: Options.Option<Err>)
      requires line != [] && !AtBody(line + src) && |line| == LineLen(line + src)
      requires e0 == if line[|line| - 1] == '\n' then Options.None else Options.Some(final)
      modifies this`src
      ensures line + old(src) == field + src && |field| == FieldLen(line + old(src)) && |src| <= old(|src|)
      ensures e.Some? ==> src == [] && e.value == final
    {
      ghost var s := line + src;
      field, e := line, e0;
      FirstLine(line, src);
      while e.None? && src != [] && (src[0] == ' ' || src[0] == '\t')
        invariant Folded(s, field, src) && |src| <= old(|src|)
        invariant e == if field[|field| - 1] == '\n' then Options.None else Options.Some(final)
        invariant e.Some? ==> src == []
        decreases |src|
      {
        ghost var before := src;
        var cont;
        cont, e := ReadLine();
        FoldMore(s, field, before, cont, src);
        field := field + cont;
      }
    }

    /** A field is read to its end; `kept` is what of it is given, nothing if it is ours. */
    method ReadField(line: Bytes, e0: Options.Option<Err>)
      returns (kept: Bytes, e: Options.Option<Err>)
      requires line != [] && !AtBody(line + src) && |line| == LineLen(line + src)
      requires e0 == if line[|line| - 1] == '\n' then Options.None else Options.Some(final)
      modifies this`src
      ensures Yield([], line + old(src), false, mine) == Yield(kept, src, e.Some?, mine)
      ensures |src| <= old(|src|) && (e.Some? ==> src == [] && e.value == final)
    {
      ghost var s := line + src;
      var field;
      field, e := ReadFolds(line, e0);
      var ours := mine(field);
      FieldOut(s, field, src, ours, e.Some?, mine);
      kept := if ours then [] else field;
    }

    /** What is kept of it is ready for output. */
    method TakeField(line: Bytes, e0: Options.Option<Err>)
      requires out == [] && !body && err.None?
      requires line != [] && !AtBody(line + src) && |line| == LineLen(line + src)
      requires e0 == if line[|line| - 1] == '\n' then Options.None else Options.Some(final)
      modifies this`src, this`out, this`err
      ensures Valid() && Rest() == Yield([], line + old(src), false, mine) && |src| <= old(|src|)
    {
      var kept, e := ReadField(line, e0);
      out, err := kept, e;
    }

    /** One logical header field, or the blank line, is consumed. */
    method Fill()
      requires Valid() && out == [] && !body && err.None?
      modifies this`src, this`out, this`body, this`err
      ensures Valid() && Rest() == old(Rest())
      ensures body || err.Some? || |src| < old(|src|)
    {
      ghost var s := src;
      var line, e := ReadLine();
      LineOut(s, line, src, mine);
      if line == [] {
        err := e;
        return;
      }
      if BlankLine(line) {
        out, body := line, true;
        return;
      }
      TakeField(line, e);
    }

    /** The loop at the head of Read. */
    method FillUp()
      requires Valid()
      modifies this`src, this`out, this`body, this`err
      ensures Valid() && Rest() == old(Rest()) && (out != [] || body || err.Some?)
    {
      while out == [] && !body && err.None?
        invariant Valid() && Rest() == old(Rest())
        decreases !body && err.None?, |src|
      {
        Fill();
      }
    }

    /** What is ready in `out` is given first. */
    method ReadOut(p: array<char>) returns (n: nat)
      requires Valid() && out != []
      modifies this`out, p
      ensures Valid() && n <= p.Length && (p.Length > 0 ==> n > 0)
      ensures old(Rest()) == p[..n] + Rest() && p[n..] == old(p[n..])
    {
      ghost var rest := Rest();
      n := if |out| < p.Length then |out| else p.Length;
      var chunk := out[..n];
      CopyTo(chunk, p);
      ghost var after := if body || err.Some? then src else Filter(src, mine);
      assert out == chunk + out[n..];
      Assoc(chunk, out[n..], after);
      out := out[n..];
      assert rest == chunk + (out + after);
    }

    /** Past the header block the underlying reader is read directly. */
    method ReadSource(p: array<char>, most: nat) returns (n: nat, e: Options.Option<Err>)
      requires Valid() && out == [] && body && err.None? && most > 0
      modifies this`src, p
      ensures Valid() && n <= p.Length
      ensures old(Rest()) == p[..n] + Rest() && p[n..] == old(p[n..])
      ensures e.Some? ==> n == 0 && Rest() == [] && e.value == final
      ensures e.None? && p.Length > 0 ==> n > 0
    {
      if p.Length == 0 { return 0, Options.None; }
      if src == [] { return 0, Options.Some(final); }
      ghost var s := src;
      n := if most < p.Length then most else p.Length;
      n, e := if |src| < n then |src| else n, Options.None;
      var chunk := src[..n];
      CopyTo(chunk, p);
      src := src[n..];
      assert s == chunk + src;
    }

    /** One call of Read.  `most` is how much the underlying reader is ready to give at once. */
    method Read(p: array<char>, most: nat) returns (n: nat, e: Options.Option<Err>)
      requires Valid() && most > 0
      modifies this`src, this`out, this`body, this`err, p
      ensures Valid() && n <= p.Length
      ensures old(Rest()) == p[..n] + Rest() && p[n..] == old(p[n..])
      ensures e.Some? ==> n == 0 && Rest() == [] && e.value == final
      ensures e.None? && p.Length > 0 ==> n > 0
    {
      FillUp();
      if out != [] {
        n := ReadOut(p);
        e := Options.None;
      } else if err.Some? {
        n, e := 0, err;
      } else {
        n, e := ReadSource(p, most);
      }
    }
  }

  lemma Regroup3(a: Bytes, b: Bytes, c: Bytes)
    ensures a + (b + c) == (a + b) + c
  {
  }

  /** However the buffers are sized and however the underlying reader trickles, reading to the end gives the
      filtered message, and then the underlying reader's own error. */
  method ReadAll(message: Bytes, authservID: string, final: Err, size: nat -> nat, most: nat -> nat)
    returns (got: Bytes, e: Err)
    requires forall k :: size(k) > 0 && most(k) > 0
    ensures got == Strip(message, authservID) && e == final
  {
    var id := Id(authservID);
    if id == "" { return message, final; }
    var r := new StripReader(message, final, (f: Bytes) => Ours(f, id));
    ghost var goal := r.Rest();
    assert goal == Strip(message, authservID);
    got := [];
    assert got + goal == goal;
    var k := 0;
    while true
      invariant r.Valid() && fresh(r) && got + r.Rest() == goal && r.final == final
      decreases |r.Rest()|
    {
      var p := new char[size(k)];
      ghost var rest := r.Rest();
      var n, ended := r.Read(p, most(k));
      Regroup3(got, p[..n], r.Rest());
      got, k := got + p[..n], k + 1;
      if ended.Some? {
        assert got + [] == got;
        return got, ended.value;
      }
    }
  }
}
