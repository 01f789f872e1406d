/**
  Header fields of a message, and a filter over them
  (mailgw-go/internal/msgauth/results.go, the part of StripAuthResults that does not depend on
  which fields are dropped).

  A field is a line with the folded lines below it that start with a blank.  The first line made
  only of carriage returns and line feeds starts the body.
 */
module HeaderFields {
  type Bytes = seq<char>

  predicate Blank(c: char) { c == ' ' || c == '\t' }

  /** Up to and including the first line feed, or everything. */
  function LineLen(s: Bytes): (n: nat)
    ensures n <= |s| && (s != [] ==> n > 0)
    ensures n < |s| ==> s[n - 1] == '\n'
  {
    if s == [] then 0 else if s[0] == '\n' then 1 else 1 + LineLen(s[1..])
  }

  /** The folded lines at the front. */
  function FoldLen(s: Bytes): (n: nat)
    ensures n <= |s|
    ensures n < |s| ==> !Blank(s[n]) && (n > 0 ==> s[n - 1] == '\n')
    decreases |s|
  {
    if s != [] && Blank(s[0]) then LineLen(s) + FoldLen(s[LineLen(s)..]) else 0
  }

  function FieldLen(s: Bytes): (n: nat)
    requires s != []
    ensures 0 < n <= |s|
    ensures n < |s| ==> s[n - 1] == '\n' && !Blank(s[n])
  {
    LineLen(s) + FoldLen(s[LineLen(s)..])
  }

  /** Nothing but carriage returns and line feeds. */
  predicate BlankLine(line: Bytes) {
    forall i :: 0 <= i < |line| ==> line[i] == '\r' || line[i] == '\n'
  }

  /** The header block is over. */
  predicate AtBody(s: Bytes) {
    s == [] || BlankLine(s[..LineLen(s)])
  }

  function Fields(s: Bytes): seq<Bytes>
    decreases |s|
  {
    if AtBody(s) then [] else [s[..FieldLen(s)]] + Fields(s[FieldLen(s)..])
  }

  function Body(s: Bytes): (b: Bytes)
    ensures |b| <= |s| && AtBody(b)
    decreases |s|
  {
    if AtBody(s) then s else Body(s[FieldLen(s)..])
  }

  function Concat(fields: seq<Bytes>): Bytes {
    if fields == [] then [] else fields[0] + Concat(fields[1..])
  }

  function Keep(fields: seq<Bytes>, mine: Bytes -> bool): seq<Bytes> {
    if fields == [] then []
    else (if mine(fields[0]) then [] else [fields[0]]) + Keep(fields[1..], mine)
  }

  /** The filter as the reader computes it: field by field, the body untouched. */
  function Filter(s: Bytes, mine: Bytes -> bool): Bytes
    decreases |s|
  {
    if AtBody(s) then s
    else
      var n := FieldLen(s);
      (if mine(s[..n]) then [] else s[..n]) + Filter(s[n..], mine)
  }

  /** One field: a line that is not blank, then folded lines only. */
  predicate IsField(f: Bytes) {
    !AtBody(f) && FieldLen(f) == |f|
  }

  /** What may stand after field `f`: nothing, or, `f` being closed by a line feed, unfolded text. */
  predicate Follows(f: Bytes, t: Bytes)
    requires f != []
  {
    t == [] || (f[|f| - 1] == '\n' && !Blank(t[0]))
  }

  // ---------------------------------------------------------------- one field at the front

  lemma {:induction false} LineOfPrefix(s: Bytes, t: Bytes)
    requires s != [] && (t == [] || s[LineLen(s) - 1] == '\n')
    ensures LineLen(s[..LineLen(s)] + t) == LineLen(s)
  {
    var u := s[..LineLen(s)] + t;
    if s[0] == '\n' {
      assert u[0] == '\n';
    } else if |s| == 1 {
      assert u == s;
    } else {
      LineOfPrefix(s[1..], t);
      assert u[1..] == s[1..][..LineLen(s[1..])] + t;
    }
  }

  /** A line in front of text that begins where the line ends. */
  lemma LineThen(line: Bytes, v: Bytes)
    requires line != [] && LineLen(line) == |line| && (v == [] || line[|line| - 1] == '\n')
    ensures LineLen(line + v) == |line| && (line + v)[|line|..] == v && (line + v)[..|line|] == line
  {
    LineOfPrefix(line, v);
    assert line[..|line|] == line;
  }

  lemma LineAlone(s: Bytes)
    ensures LineLen(s[..LineLen(s)]) == LineLen(s)
  {
    if s != [] {
      LineOfPrefix(s, []);
      assert s[..LineLen(s)] + [] == s[..LineLen(s)];
    }
  }

  lemma FoldLine(line: Bytes, v: Bytes)
    requires line != [] && LineLen(line) == |line| && (v == [] || line[|line| - 1] == '\n') && Blank(line[0])
    ensures FoldLen(line + v) == |line| + FoldLen(v)
  {
    LineThen(line, v);
  }

  lemma CutJoin(c: Bytes, k: nat, t: Bytes)
    requires k <= |c|
    ensures c + t == c[..k] + (c[k..] + t)
  {
  }

  /** The first line of text that is nothing but folds. */
  lemma FoldHead(c: Bytes) returns (line: Bytes, rest: Bytes)
    requires c != [] && FoldLen(c) == |c|
    ensures c == line + rest && line != [] && LineLen(line) == |line| && Blank(line[0])
    ensures FoldLen(rest) == |rest| && (rest != [] ==> line[|line| - 1] == '\n' && rest[|rest| - 1] == c[|c| - 1])
    ensures rest == [] ==> line[|line| - 1] == c[|c| - 1]
  {
    var k := LineLen(c);
    line, rest := c[..k], c[k..];
    LineAlone(c);
  }

  lemma {:induction false} FoldThen(c: Bytes, t: Bytes)
    requires FoldLen(c) == |c| && (t == [] || (!Blank(t[0]) && (c == [] || c[|c| - 1] == '\n')))
    ensures FoldLen(c + t) == |c|
    decreases |c|
  {
    if c == [] {
      assert c + t == t;
    } else {
      var line, rest := FoldHead(c);
      FoldThen(rest, t);
      CutJoin(c, |line|, t);
      assert c[..|line|] == line && c[|line|..] == rest;
      FoldLine(line, rest + t);
    }
  }

  lemma LineOfJoin(c: Bytes, t: Bytes)
    requires c != [] && LineLen(c + t) <= |c|
    ensures var k := LineLen(c + t); 0 < k && LineLen(c[..k]) == k && (k < |c| ==> c[k - 1] == '\n')
    ensures var k := LineLen(c + t); c == c[..k] + c[k..] && (c + t)[k..] == c[k..] + t
  {
    var k := LineLen(c + t);
    LineAlone(c + t);
    assert (c + t)[..k] == c[..k];
    assert (c + t)[k - 1] == c[k - 1];
  }

  lemma {:induction false} FoldAlone(c: Bytes, t: Bytes)
    requires FoldLen(c + t) == |c|
    ensures FoldLen(c) == |c|
    decreases |c|
  {
    if c != [] {
      var k := LineLen(c + t);
      assert (c + t)[0] == c[0];
      LineOfJoin(c, t);
      FoldAlone(c[k..], t);
      FoldLine(c[..k], c[k..]);
    }
  }

  lemma Assoc(a: Bytes, b: Bytes, c: Bytes)
    ensures (a + b) + c == a + (b + c)
  {
  }

  /** The first line of a field, and the folds under it. */
  lemma FieldHead(f: Bytes) returns (line: Bytes, folds: Bytes)
    requires IsField(f)
    ensures f == line + folds && line != [] && LineLen(line) == |line| && !BlankLine(line)
    ensures FoldLen(folds) == |folds| && (folds != [] ==> line[|line| - 1] == '\n' && folds[|folds| - 1] == f[|f| - 1])
    ensures folds == [] ==> line[|line| - 1] == f[|f| - 1]
  {
    var k := LineLen(f);
    line, folds := f[..k], f[k..];
    LineAlone(f);
  }

  /** A line that is not blank, then folds, then unfolded text. */
  lemma FieldFromParts(line: Bytes, folds: Bytes, t: Bytes)
    requires line != [] && LineLen(line) == |line| && !BlankLine(line)
    requires FoldLen(folds + t) == |folds| && (folds + t != [] ==> line[|line| - 1] == '\n')
    ensures !AtBody(line + (folds + t)) && FieldLen(line + (folds + t)) == |line| + |folds|
  {
    LineThen(line, folds + t);
  }

  /** A field is read the same whatever may follow it. */
  lemma Joined(f: Bytes, t: Bytes)
    requires IsField(f) && Follows(f, t)
    ensures !AtBody(f + t) && FieldLen(f + t) == |f| && (f + t)[..|f|] == f && (f + t)[|f|..] == t
  {
    var line, folds := FieldHead(f);
    FoldThen(folds, t);
    FieldFromParts(line, folds, t);
    Assoc(line, folds, t);
  }

  /** The field at the front of a message. */
  lemma Unjoined(s: Bytes) returns (f: Bytes, t: Bytes)
    requires !AtBody(s)
    ensures s == f + t && f == s[..FieldLen(s)] && t == s[FieldLen(s)..] && |t| < |s|
    ensures IsField(f) && Follows(f, t)
  {
    f, t := s[..FieldLen(s)], s[FieldLen(s)..];
    assert s == f + t;
    FieldAlone(f, t);
  }

  lemma FieldAlone(f: Bytes, t: Bytes)
    requires !AtBody(f + t) && FieldLen(f + t) == |f| && f != []
    ensures IsField(f)
  {
    var k := LineLen(f + t);
    LineOfJoin(f, t);
    FoldAlone(f[k..], t);
    LineThen(f[..k], f[k..]);
    assert (f + t)[..k] == f[..k];
  }

  lemma SplitJoined(f: Bytes, t: Bytes, mine: Bytes -> bool)
    requires IsField(f) && Follows(f, t)
    ensures Fields(f + t) == [f] + Fields(t) && Body(f + t) == Body(t)
    ensures Filter(f + t, mine) == (if mine(f) then [] else f) + Filter(t, mine)
  {
    Joined(f, t);
  }

  lemma ConcatCons(f: Bytes, fields: seq<Bytes>)
    ensures Concat([f] + fields) == f + Concat(fields)
  {
    assert ([f] + fields)[1..] == fields;
  }

  lemma KeepCons(f: Bytes, fields: seq<Bytes>, mine: Bytes -> bool)
    ensures Keep([f] + fields, mine) == (if mine(f) then [] else [f]) + Keep(fields, mine)
  {
    assert ([f] + fields)[1..] == fields;
  }

  // ---------------------------------------------------------------- a message is its fields and its body

  /** Splitting loses nothing. */
  lemma {:induction false} SplitIsWhole(s: Bytes)
    ensures s == Concat(Fields(s)) + Body(s)
    decreases |s|
  {
    if !AtBody(s) {
      var f, t := Unjoined(s);
      SplitIsWhole(t);
      SplitJoined(f, t, _ => false);
      ConcatCons(f, Fields(t));
      Assoc(f, Concat(Fields(t)), Body(t));
    }
  }

  /** Fields and a body that make up a message: each field but one at the very end is closed by a line
      feed, and nothing after the first field starts with a blank. */
  predicate WellSplit(fields: seq<Bytes>, body: Bytes) {
    if fields == [] then AtBody(body)
    else IsField(fields[0]) && Follows(fields[0], Concat(fields[1..]) + body) && WellSplit(fields[1..], body)
  }

  /** And it can be split in no other way. */
  lemma {:induction false} SplitIsUnique(fields: seq<Bytes>, body: Bytes)
    requires WellSplit(fields, body)
    ensures Fields(Concat(fields) + body) == fields && Body(Concat(fields) + body) == body
  {
    if fields == [] {
      assert Concat(fields) + body == body;
    } else {
      var f, rest := fields[0], fields[1..];
      SplitIsUnique(rest, body);
      assert fields == [f] + rest;
      ConcatCons(f, rest);
      Assoc(f, Concat(rest), body);
      SplitJoined(f, Concat(rest) + body, _ => false);
    }
  }

  lemma {:induction false} SplitIsWell(s: Bytes)
    ensures WellSplit(Fields(s), Body(s))
    decreases |s|
  {
    if !AtBody(s) {
      var f, t := Unjoined(s);
      SplitIsWell(t);
      SplitJoined(f, t, _ => false);
      SplitIsWhole(t);
      assert Fields(s)[1..] == Fields(t);
    }
  }

  // ---------------------------------------------------------------- filtering

  /** The output is the kept fields, in order, and the body, byte for byte. */
  lemma {:induction false} FilterIsKeep(s: Bytes, mine: Bytes -> bool)
    ensures Filter(s, mine) == Concat(Keep(Fields(s), mine)) + Body(s)
    decreases |s|
  {
    if !AtBody(s) {
      var f, t := Unjoined(s);
      FilterIsKeep(t, mine);
      SplitJoined(f, t, mine);
      var rest := Keep(Fields(t), mine);
      KeepCons(f, Fields(t), mine);
      if mine(f) {
        assert [] + rest == rest;
      } else {
        ConcatCons(f, rest);
        Assoc(f, Concat(rest), Body(t));
      }
    }
  }

  lemma {:induction false} FilterStartsPlain(s: Bytes, mine: Bytes -> bool)
    requires s == [] || !Blank(s[0])
    ensures Filter(s, mine) == [] || !Blank(Filter(s, mine)[0])
    decreases |s|
  {
    if !AtBody(s) { FilterStartsPlain(s[FieldLen(s)..], mine); }
  }

  /** Reading the output again finds exactly the kept fields and the same body. */
  lemma {:induction false} FilteredSplit(s: Bytes, mine: Bytes -> bool)
    ensures Fields(Filter(s, mine)) == Keep(Fields(s), mine)
    ensures Body(Filter(s, mine)) == Body(s)
    decreases |s|
  {
    if !AtBody(s) {
      var f, t := Unjoined(s);
      FilteredSplit(t, mine);
      SplitJoined(f, t, mine);
      KeepCons(f, Fields(t), mine);
      FilterStartsPlain(t, mine);
      var u := Filter(t, mine);
      if mine(f) {
        assert [] + u == u && [] + Keep(Fields(t), mine) == Keep(Fields(t), mine);
      } else {
        SplitJoined(f, u, mine);
      }
    }
  }

  lemma {:induction false} KeepsNoneOfMine(fields: seq<Bytes>, mine: Bytes -> bool)
    ensures forall f :: f in Keep(fields, mine) <==> f in fields && !mine(f)
  {
    if fields != [] {
      KeepsNoneOfMine(fields[1..], mine);
      assert fields == [fields[0]] + fields[1..];
    }
  }

  lemma {:induction false} KeepAll(fields: seq<Bytes>, mine: Bytes -> bool)
    requires forall f :: f in fields ==> !mine(f)
    ensures Keep(fields, mine) == fields
  {
    if fields != [] { KeepAll(fields[1..], mine); }
  }

  /** Filtering twice is filtering once. */
  lemma FilterTwice(s: Bytes, mine: Bytes -> bool)
    ensures Filter(Filter(s, mine), mine) == Filter(s, mine)
  {
    FilterIsKeep(s, mine);
    FilterIsKeep(Filter(s, mine), mine);
    FilteredSplit(s, mine);
    KeepsNoneOfMine(Fields(s), mine);
    KeepAll(Keep(Fields(s), mine), mine);
  }
}
