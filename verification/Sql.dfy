/**
  The fragment of SQL the searches are written in: its rendering (logservice-go/query/builder.go), and an
  independent reader of it by MySQL's rules, where a doubled backtick inside backticks is one.
 */
module Sql {
  import opened Options

  /** A column; an empty prefix is none. */
  datatype Col = Col(prefix: string, field: string)

  datatype Op = Eq | Like | Between | Gt | Ge | Lt | Le

  datatype Cond = Cond(col: Col, op: Op)

  datatype Order = Order(col: Col, asc: bool)

  function OpText(op: Op): string {
    match op
    case Eq => " = ?"
    case Like => " LIKE ?"
    case Between => " BETWEEN ? AND ?"
    case Gt => " > ?"
    case Ge => " >= ?"
    case Lt => " < ?"
    case Le => " <= ?"
  }

  /** How many placeholders. */
  function Arity(op: Op): nat { if op.Between? then 2 else 1 }

  function Double(s: string): string {
    if s == "" then "" else (if s[0] == '`' then "``" else [s[0]]) + Double(s[1..])
  }

  function Quote(s: string): string { "`" + Double(s) + "`" }

  function QuoteCol(c: Col): string {
    if c.prefix == "" then Quote(c.field) else Quote(c.prefix) + "." + Quote(c.field)
  }

  function Joiner(or: bool): string { if or then " OR " else " AND " }

  function CondText(c: Cond): string { QuoteCol(c.col) + OpText(c.op) }

  /** strings.Join */
  function JoinText(parts: seq<string>, sep: string): string {
    if parts == [] then "" else if |parts| == 1 then parts[0] else parts[0] + (sep + JoinText(parts[1..], sep))
  }

  function CondTexts(cs: seq<Cond>): (t: seq<string>)
    ensures |t| == |cs| && forall i :: 0 <= i < |cs| ==> t[i] == CondText(cs[i])
  {
    seq(|cs|, i requires 0 <= i < |cs| => CondText(cs[i]))
  }

  function OrderText(o: Order): string { QuoteCol(o.col) + " " + (if o.asc then "ASC" else "DESC") }

  function OrderTexts(os: seq<Order>): (t: seq<string>)
    ensures |t| == |os| && forall i :: 0 <= i < |os| ==> t[i] == OrderText(os[i])
  {
    seq(|os|, i requires 0 <= i < |os| => OrderText(os[i]))
  }

  // ---------------------------------------------------------------- reading

  predicate Starts(s: string, p: string) { |p| <= |s| && s[..|p|] == p }

  /** After an opening backtick. */
  function ReadQuoted(s: string): (r: Option<(string, string)>)
    ensures r.Some? ==> |r.value.1| < |s|
    decreases |s|
  {
    if s == "" then None
    else if s[0] == '`' then
      if |s| > 1 && s[1] == '`' then
        match ReadQuoted(s[2..])
        case None => None
        case Some((name, rest)) => Some((['`'] + name, rest))
      else Some(("", s[1..]))
    else
      match ReadQuoted(s[1..])
      case None => None
      case Some((name, rest)) => Some(([s[0]] + name, rest))
  }

  function ReadIdent(s: string): (r: Option<(string, string)>)
    ensures r.Some? ==> |r.value.1| < |s|
  {
    if s == "" || s[0] != '`' then None else ReadQuoted(s[1..])
  }

  function ReadCol(s: string): (r: Option<(Col, string)>)
    ensures r.Some? ==> |r.value.1| < |s|
  {
    match ReadIdent(s)
    case None => None
    case Some((name, rest)) =>
      if rest != "" && rest[0] == '.' then
        match ReadIdent(rest[1..])
        case None => None
        case Some((field, more)) => Some((Col(name, field), more))
      else Some((Col("", name), rest))
  }

  function ReadOp(s: string): (r: Option<(Op, string)>)
    ensures r.Some? ==> |r.value.1| < |s|
  {
    if |s| < 3 then None
    else
      var op :=
        if s[1] == '=' then Eq
        else if s[1] == 'L' then Like
        else if s[1] == 'B' then Between
        else if s[1] == '>' then (if s[2] == '=' then Ge else Gt)
        else (if s[2] == '=' then Le else Lt);
      if Starts(s, OpText(op)) then Some((op, s[|OpText(op)|..])) else None
  }

  function ReadCond(s: string): (r: Option<(Cond, string)>)
    ensures r.Some? ==> |r.value.1| < |s|
  {
    match ReadCol(s)
    case None => None
    case Some((col, rest)) =>
      match ReadOp(rest)
      case None => None
      case Some((op, more)) => Some((Cond(col, op), more))
  }

  function ReadJoiner(s: string): (r: Option<(bool, string)>)
    ensures r.Some? ==> |r.value.1| < |s|
  {
    if Starts(s, " AND ") then Some((false, s[5..]))
    else if Starts(s, " OR ") then Some((true, s[4..]))
    else None
  }

  /** A condition, and as many more as are joined to it; each joiner is true for OR. */
  function ReadConds(s: string): Option<(seq<Cond>, seq<bool>, string)>
    decreases |s|
  {
    match ReadCond(s)
    case None => None
    case Some((c, rest)) =>
      match ReadJoiner(rest)
      case None => Some(([c], [], rest))
      case Some((or, tail)) =>
        match ReadConds(tail)
        case None => None
        case Some((cs, ors, more)) => Some(([c] + cs, [or] + ors, more))
  }

  function ReadOrder(s: string): (r: Option<(Order, string)>)
    ensures r.Some? ==> |r.value.1| < |s|
  {
    match ReadCol(s)
    case None => None
    case Some((col, rest)) =>
      if Starts(rest, " ASC") then Some((Order(col, true), rest[4..]))
      else if Starts(rest, " DESC") then Some((Order(col, false), rest[5..]))
      else None
  }

  function ReadOrders(s: string): Option<(seq<Order>, string)>
    decreases |s|
  {
    match ReadOrder(s)
    case None => None
    case Some((o, rest)) =>
      if Starts(rest, ", ") then
        match ReadOrders(rest[2..])
        case None => None
        case Some((os, more)) => Some(([o] + os, more))
      else Some(([o], rest))
  }

  /** What stands after FROM: the filter, the order, and whether a page is asked for. */
  datatype Query = Query(conds: seq<Cond>, ors: seq<bool>, orders: seq<Order>, paged: bool)

  function ReadPage(s: string, conds: seq<Cond>, ors: seq<bool>): Option<Query> {
    if s == "" then Some(Query(conds, ors, [], false))
    else if Starts(s, ORDER_BY) then
      match ReadOrders(s[|ORDER_BY|..])
      case None => None
      case Some((orders, rest)) => if rest == LIMIT then Some(Query(conds, ors, orders, true)) else None
    else None
  }

  const WHERE := " WHERE "
  const ORDER_BY := " ORDER BY "
  const LIMIT := " LIMIT ? OFFSET ?"

  function ReadQuery(s: string): Option<Query> {
    if Starts(s, WHERE) then
      match ReadConds(s[|WHERE|..])
      case None => None
      case Some((conds, ors, rest)) => ReadPage(rest, conds, ors)
    else ReadPage(s, [], [])
  }

  /** Placeholders of a statement. */
  function Placeholders(conds: seq<Cond>): nat {
    if conds == [] then 0 else Arity(conds[0].op) + Placeholders(conds[1..])
  }

  // ---------------------------------------------------------------- what is rendered is read back

  lemma {:induction false} QuotedIsRead(name: string, rest: string)
    requires rest == "" || rest[0] != '`'
    ensures ReadQuoted(Double(name) + "`" + rest) == Some((name, rest))
  {
    var s := Double(name) + "`" + rest;
    if name == "" {
      assert s == "`" + rest;
    } else {
      QuotedIsRead(name[1..], rest);
      var more := Double(name[1..]) + "`" + rest;
      assert name == [name[0]] + name[1..];
      if name[0] == '`' {
        assert s == "``" + more;
        assert s[2..] == more;
      } else {
        assert s == [name[0]] + more;
        assert s[1..] == more;
      }
    }
  }

  lemma IdentIsRead(name: string, rest: string)
    requires rest == "" || rest[0] != '`'
    ensures ReadIdent(Quote(name) + rest) == Some((name, rest))
  {
    var s := Quote(name) + rest;
    QuotedIsRead(name, rest);
    assert s[0] == '`' && s[1..] == Double(name) + "`" + rest;
  }

  lemma PrefixIsCut(prefix: string, field: string, rest: string)
    ensures (Quote(prefix) + "." + Quote(field)) + rest == Quote(prefix) + ("." + (Quote(field) + rest))
  {
  }

  lemma QualifiedIsRead(prefix: string, field: string, rest: string)
    requires rest == "" || rest[0] != '`'
    ensures ReadCol(Quote(prefix) + ("." + (Quote(field) + rest))) == Some((Col(prefix, field), rest))
  {
    var more := "." + (Quote(field) + rest);
    IdentIsRead(prefix, more);
    assert more[1..] == Quote(field) + rest;
    IdentIsRead(field, rest);
  }

  lemma ColIsRead(c: Col, rest: string)
    requires rest == "" || (rest[0] != '`' && rest[0] != '.')
    ensures ReadCol(QuoteCol(c) + rest) == Some((c, rest))
  {
    if c.prefix == "" {
      IdentIsRead(c.field, rest);
    } else {
      PrefixIsCut(c.prefix, c.field, rest);
      QualifiedIsRead(c.prefix, c.field, rest);
    }
  }

  lemma StartsCat(p: string, t: string)
    ensures Starts(p + t, p) && (p + t)[|p|..] == t
  {
  }

  lemma OpIsRead(op: Op, rest: string)
    ensures ReadOp(OpText(op) + rest) == Some((op, rest))
  {
    StartsCat(OpText(op), rest);
  }

  lemma CondIsRead(c: Cond, rest: string)
    ensures ReadCond(CondText(c) + rest) == Some((c, rest))
  {
    assert CondText(c) + rest == QuoteCol(c.col) + (OpText(c.op) + rest);
    assert OpText(c.op)[0] == ' ';
    ColIsRead(c.col, OpText(c.op) + rest);
    OpIsRead(c.op, rest);
  }

  function Ors(or: bool, n: nat): (r: seq<bool>)
    ensures |r| == n && forall i :: 0 <= i < n ==> r[i] == or
  {
    seq(n, _ => or)
  }

  predicate NoJoiner(rest: string) { ReadJoiner(rest).None? }

  /** `s` and `p` have different characters at `i`. */
  lemma Differs(s: string, p: string, i: nat)
    requires i < |s| && i < |p| && s[i] != p[i]
    ensures !Starts(s, p)
  {
  }

  lemma JoinerIsRead(or: bool, tail: string)
    ensures ReadJoiner(Joiner(or) + tail) == Some((or, tail))
  {
    StartsCat(Joiner(or), tail);
    if or { Differs(Joiner(or) + tail, " AND ", 1); }
  }

  lemma JoinedIsRead(c: Cond, or: bool, tail: string, cs: seq<Cond>, ors: seq<bool>, rest: string)
    requires ReadConds(tail) == Some((cs, ors, rest))
    ensures ReadConds(CondText(c) + (Joiner(or) + tail)) == Some(([c] + cs, [or] + ors, rest))
  {
    CondIsRead(c, Joiner(or) + tail);
    JoinerIsRead(or, tail);
  }

  lemma JoinStep(parts: seq<string>, sep: string, rest: string)
    requires |parts| > 1
    ensures JoinText(parts, sep) + rest == parts[0] + (sep + (JoinText(parts[1..], sep) + rest))
  {
    Regroup(parts[0], sep, JoinText(parts[1..], sep), rest);
  }

  lemma CondTextsTail(cs: seq<Cond>)
    requires cs != []
    ensures CondTexts(cs)[0] == CondText(cs[0]) && CondTexts(cs)[1..] == CondTexts(cs[1..])
  {
  }

  lemma OrsTail(or: bool, n: nat)
    requires n > 0
    ensures Ors(or, n) == [or] + Ors(or, n - 1)
  {
  }

  /** The text of conditions, cut after the first. */
  lemma CondsHead(cs: seq<Cond>, or: bool, rest: string) returns (tail: string)
    requires |cs| > 1
    ensures tail == JoinText(CondTexts(cs[1..]), Joiner(or)) + rest
    ensures JoinText(CondTexts(cs), Joiner(or)) + rest == CondText(cs[0]) + (Joiner(or) + tail)
  {
    CondTextsTail(cs);
    tail := JoinText(CondTexts(cs[1..]), Joiner(or)) + rest;
    JoinStep(CondTexts(cs), Joiner(or), rest);
  }

  lemma MoreCondsAreRead(cs: seq<Cond>, or: bool, rest: string)
    requires |cs| > 1
    requires ReadConds(JoinText(CondTexts(cs[1..]), Joiner(or)) + rest) == Some((cs[1..], Ors(or, |cs| - 2), rest))
    ensures ReadConds(JoinText(CondTexts(cs), Joiner(or)) + rest) == Some((cs, Ors(or, |cs| - 1), rest))
  {
    var tail := CondsHead(cs, or, rest);
    JoinedIsRead(cs[0], or, tail, cs[1..], Ors(or, |cs| - 2), rest);
    OrsTail(or, |cs| - 1);
    assert cs == [cs[0]] + cs[1..];
  }

  lemma {:induction false} CondsAreRead(cs: seq<Cond>, or: bool, rest: string)
    requires cs != [] && NoJoiner(rest)
    ensures ReadConds(JoinText(CondTexts(cs), Joiner(or)) + rest) == Some((cs, Ors(or, |cs| - 1), rest))
    decreases |cs|
  {
    if |cs| == 1 {
      LastCondIsRead(cs, or, rest);
    } else {
      var more := cs[1..];
      assert |more| == |cs| - 1;
      CondsAreRead(more, or, rest);
      assert Ors(or, |more| - 1) == Ors(or, |cs| - 2);
      MoreCondsAreRead(cs, or, rest);
    }
  }

  lemma LastCondIsRead(cs: seq<Cond>, or: bool, rest: string)
    requires |cs| == 1 && NoJoiner(rest)
    ensures ReadConds(JoinText(CondTexts(cs), Joiner(or)) + rest) == Some((cs, Ors(or, 0), rest))
  {
    var text := JoinText(CondTexts(cs), Joiner(or));
    assert text == CondText(cs[0]);
    CondIsRead(cs[0], rest);
    assert [cs[0]] == cs && Ors(or, 0) == [];
  }

  lemma Regroup(a: string, b: string, c: string, d: string)
    ensures (a + (b + c)) + d == a + (b + (c + d))
  {
  }

  lemma OrderIsRead(o: Order, rest: string)
    ensures ReadOrder(OrderText(o) + rest) == Some((o, rest))
  {
    var dir := if o.asc then " ASC" else " DESC";
    assert OrderText(o) + rest == QuoteCol(o.col) + (dir + rest);
    ColIsRead(o.col, dir + rest);
    StartsCat(dir, rest);
    assert (dir + rest)[1] == dir[1];
    if !o.asc { Differs(dir + rest, " ASC", 1); }
  }

  lemma OrderThenMore(o: Order, tail: string, os: seq<Order>, rest: string)
    requires ReadOrders(tail) == Some((os, rest))
    ensures ReadOrders(OrderText(o) + (", " + tail)) == Some(([o] + os, rest))
  {
    OrderIsRead(o, ", " + tail);
    StartsCat(", ", tail);
  }

  lemma LastOrderIsRead(o: Order, rest: string)
    requires !Starts(rest, ", ")
    ensures ReadOrders(OrderText(o) + rest) == Some(([o], rest))
  {
    OrderIsRead(o, rest);
  }

  /** The text of orders, cut after the first. */
  lemma OrdersHead(os: seq<Order>, rest: string) returns (tail: string)
    requires |os| > 1
    ensures tail == JoinText(OrderTexts(os[1..]), ", ") + rest
    ensures JoinText(OrderTexts(os), ", ") + rest == OrderText(os[0]) + (", " + tail)
  {
    assert OrderTexts(os)[1..] == OrderTexts(os[1..]);
    tail := JoinText(OrderTexts(os[1..]), ", ") + rest;
    JoinStep(OrderTexts(os), ", ", rest);
  }

  lemma {:induction false} OrdersAreRead(os: seq<Order>, rest: string)
    requires os != [] && !Starts(rest, ", ")
    ensures ReadOrders(JoinText(OrderTexts(os), ", ") + rest) == Some((os, rest))
    decreases |os|
  {
    if |os| == 1 {
      LastOrderIsRead(os[0], rest);
      assert os == [os[0]];
    } else {
      var more := os[1..];
      assert |more| == |os| - 1;
      var tail := OrdersHead(os, rest);
      OrdersAreRead(more, rest);
      OrderThenMore(os[0], tail, more, rest);
      assert os == [os[0]] + more;
    }
  }

  function WhereText(cs: seq<Cond>, or: bool): string {
    if cs == [] then "" else WHERE + JoinText(CondTexts(cs), Joiner(or))
  }

  function PageText(cs: seq<Cond>, or: bool, os: seq<Order>): string {
    WhereText(cs, or) + ORDER_BY + JoinText(OrderTexts(os), ", ") + LIMIT
  }

  function OrsOf(cs: seq<Cond>, or: bool): seq<bool> { if cs == [] then [] else Ors(or, |cs| - 1) }

  lemma PageIsRead(cs: seq<Cond>, ors: seq<bool>, os: seq<Order>)
    requires os != []
    ensures ReadPage(ORDER_BY + (JoinText(OrderTexts(os), ", ") + LIMIT), cs, ors) == Some(Query(cs, ors, os, true))
  {
    var t := JoinText(OrderTexts(os), ", ") + LIMIT;
    StartsCat(ORDER_BY, t);
    assert LIMIT[0] == ' ';
    OrdersAreRead(os, LIMIT);
  }

  lemma OrderByIsNoJoiner(t: string)
    ensures NoJoiner(ORDER_BY + t) && !Starts(ORDER_BY + t, WHERE) && NoJoiner("")
  {
    var s := ORDER_BY + t;
    assert s[1] == 'O' && s[3] == 'D';
    Differs(s, " AND ", 1);
    Differs(s, " OR ", 3);
    Differs(s, WHERE, 1);
  }

  lemma RegroupPage(a: string, b: string, c: string, d: string, e: string)
    ensures (a + b) + c + d + e == a + (b + (c + (d + e)))
  {
  }

  lemma WhereIsRead(cs: seq<Cond>, or: bool, rest: string)
    requires cs != [] && NoJoiner(rest)
    ensures ReadQuery(WHERE + (JoinText(CondTexts(cs), Joiner(or)) + rest)) == ReadPage(rest, cs, OrsOf(cs, or))
  {
    StartsCat(WHERE, JoinText(CondTexts(cs), Joiner(or)) + rest);
    CondsAreRead(cs, or, rest);
  }

  /** The page statement is read as the conditions, the one joiner between them, and the order. */
  lemma PageStatementIsRead(cs: seq<Cond>, or: bool, os: seq<Order>)
    requires os != []
    ensures ReadQuery(PageText(cs, or, os)) == Some(Query(cs, OrsOf(cs, or), os, true))
  {
    var orders := JoinText(OrderTexts(os), ", ");
    var page := ORDER_BY + (orders + LIMIT);
    OrderByIsNoJoiner(orders + LIMIT);
    PageIsRead(cs, OrsOf(cs, or), os);
    if cs == [] {
      RegroupPage("", "", ORDER_BY, orders, LIMIT);
      assert "" + ("" + page) == page;
    } else {
      RegroupPage(WHERE, JoinText(CondTexts(cs), Joiner(or)), ORDER_BY, orders, LIMIT);
      WhereIsRead(cs, or, page);
    }
  }

  /** So is the count statement, which has no order and no page. */
  lemma CountStatementIsRead(cs: seq<Cond>, or: bool)
    ensures ReadQuery(WhereText(cs, or)) == Some(Query(cs, OrsOf(cs, or), [], false))
  {
    OrderByIsNoJoiner("");
    if cs != [] {
      var conds := JoinText(CondTexts(cs), Joiner(or));
      assert conds + "" == conds;
      WhereIsRead(cs, or, "");
    }
  }
}
