/**
  From a caller's filters to SQL (logservice-go/query/builder.go, search.go).

  Whether a row meets one condition, with its arguments, is a parameter.
 */
module SqlWhere {
  import opened Options
  import opened Sql
  import Numbers
  import Text

  const DEFAULT_LIMIT := 100
  const MAX_LIMIT := 1000

  /** A JSON value.  A number comes with its shortest decimal rendering. */
  datatype Value = Null | Str(s: string) | Bool(b: bool) | Num(n: real, text: string) | Arr(items: seq<Value>) | Obj

  /** What the driver is handed. */
  datatype Arg = Chars(s: string) | Flag(b: bool) | Whole(i: int) | Fraction(r: real)

  datatype Param = Param(field: string, operator: string, value: Value)

  datatype Sort = Sort(field: string, direction: string)

  /** A filter that survives: what it asks of its column. */
  datatype Filter = Filter(field: string, op: Op, args: seq<Arg>)

  datatype Where = Where(sql: string, values: seq<Arg>)

  predicate SkipValue(v: Value) { v.Null? || v == Str("") || v == Bool(false) }

  function Scalar(v: Value): Option<Arg> {
    match v
    case Str(s) => Some(Chars(s))
    case Bool(b) => Some(Flag(b))
    case Num(n, _) =>
      if n == n.Floor as real && -9007199254740992.0 < n < 9007199254740992.0 then Some(Whole(n.Floor))
      else Some(Fraction(n))
    case _ => None
  }

  function LikeText(v: Value): Option<string> {
    match v
    case Str(s) => Some(s)
    case Bool(b) => Some(if b then "true" else "false")
    case Num(_, text) => Some(text)
    case _ => None
  }

  predicate IsOr(logic: string) { Text.SameFold(logic, "OR") }

  // ---------------------------------------------------------------- what a filter means

  function Compare(op: Op, v: Value): Option<(Op, seq<Arg>)> {
    match Scalar(v) case None => None case Some(a) => Some((op, [a]))
  }

  function Pattern(before: string, v: Value, after: string): Option<(Op, seq<Arg>)> {
    match LikeText(v) case None => None case Some(s) => Some((Like, [Chars(before + s + after)]))
  }

  function Range(v: Value): Option<(Op, seq<Arg>)> {
    if v.Arr? && |v.items| == 2 && Scalar(v.items[0]).Some? && Scalar(v.items[1]).Some? then
      Some((Between, [Scalar(v.items[0]).value, Scalar(v.items[1]).value]))
    else None
  }

  function Asked(operator: string, v: Value): (r: Option<(Op, seq<Arg>)>)
    ensures r.Some? ==> |r.value.1| == Arity(r.value.0)
  {
    if operator == "is" || operator == "=" then Compare(Eq, v)
    else if operator == "begins" then Pattern("", v, "%")
    else if operator == "contains" then Pattern("%", v, "%")
    else if operator == "ends" then Pattern("%", v, "")
    else if operator == "between" then Range(v)
    else if operator == ">" || operator == "more" then Compare(Gt, v)
    else if operator == ">=" then Compare(Ge, v)
    else if operator == "<" || operator == "less" then Compare(Lt, v)
    else if operator == "<=" then Compare(Le, v)
    else None
  }

  /** A filter survives if its value counts, its column is allowed, and its operator can use the value. */
  function Survivor(p: Param, allowed: set<string>): (f: seq<Filter>)
    ensures |f| <= 1 && forall g :: g in f ==> g.field in allowed && |g.args| == Arity(g.op)
  {
    if SkipValue(p.value) || p.field !in allowed then []
    else match Asked(p.operator, p.value) case None => [] case Some((op, args)) => [Filter(p.field, op, args)]
  }

  /** `a` is the value as the driver is handed it: a number that is whole, and exact as a float, as an integer. */
  predicate IsArg(v: Value, a: Arg) {
    match v
    case Str(s) => a == Chars(s)
    case Bool(b) => a == Flag(b)
    case Num(n, _) =>
      if n == n.Floor as real && -9007199254740992.0 < n < 9007199254740992.0 then a.Whole? && a.i as real == n
      else a == Fraction(n)
    case _ => false
  }

  /** `s` is the value as text. */
  predicate IsText(v: Value, s: string) {
    match v
    case Str(t) => s == t
    case Bool(b) => s == if b then "true" else "false"
    case Num(_, text) => s == text
    case _ => false
  }

  predicate OneValue(v: Value) { v.Str? || v.Bool? || v.Num? }

  /** A condition on a column, as it is written after it, and its arguments: a comparison with the value, a pattern
      around its text, or a range between two values. */
  ghost predicate Means(operator: string, v: Value, sql: string, args: seq<Arg>) {
    if operator == "begins" then sql == " LIKE ?" && exists s :: IsText(v, s) && args == [Chars(s + "%")]
    else if operator == "contains" then sql == " LIKE ?" && exists s :: IsText(v, s) && args == [Chars("%" + s + "%")]
    else if operator == "ends" then sql == " LIKE ?" && exists s :: IsText(v, s) && args == [Chars("%" + s)]
    else if operator == "between" then
      sql == " BETWEEN ? AND ?" && v.Arr? && |v.items| == 2 && |args| == 2 &&
      IsArg(v.items[0], args[0]) && IsArg(v.items[1], args[1])
    else
      |args| == 1 && IsArg(v, args[0]) &&
      ((operator == "is" && sql == " = ?") || (operator == "=" && sql == " = ?") ||
       (operator == ">" && sql == " > ?") || (operator == "more" && sql == " > ?") ||
       (operator == ">=" && sql == " >= ?") ||
       (operator == "<" && sql == " < ?") || (operator == "less" && sql == " < ?") ||
       (operator == "<=" && sql == " <= ?"))
  }

  /** Which filters there are: an empty value, false and null ask for nothing, 0 does. */
  predicate CanAsk(operator: string, v: Value) {
    v != Str("") && v != Bool(false) && v != Null &&
    if operator == "between" then v.Arr? && |v.items| == 2 && OneValue(v.items[0]) && OneValue(v.items[1])
    else operator in {"is", "=", "begins", "contains", "ends", ">", "more", ">=", "<", "less", "<="} && OneValue(v)
  }

  /** A filter survives exactly if its column is allowed and its operator can use its value, and then it asks of that
      column what the operator says. */
  lemma SurvivorMeans(p: Param, allowed: set<string>)
    ensures Survivor(p, allowed) != [] <==> p.field in allowed && CanAsk(p.operator, p.value)
    ensures forall f :: f in Survivor(p, allowed) ==>
              f.field == p.field && Means(p.operator, p.value, OpText(f.op), f.args)
  {
    if Survivor(p, allowed) != [] { AskedMeans(p.operator, p.value); }
  }

  lemma AskedMeans(operator: string, v: Value)
    requires Asked(operator, v).Some?
    ensures Means(operator, v, OpText(Asked(operator, v).value.0), Asked(operator, v).value.1)
  {
    if operator == "begins" || operator == "contains" || operator == "ends" {
      var s := LikeText(v).value;
      assert IsText(v, s) && "" + s == s && "%" + s + "" == "%" + s;
    }
  }

  predicate Kept(p: Param, allowed: set<string>) { p.field in allowed && CanAsk(p.operator, p.value) }

  /** Filter `f` asks for what parameter `p` says. */
  ghost predicate Stands(f: Filter, p: Param) {
    f.field == p.field && Means(p.operator, p.value, OpText(f.op), f.args)
  }

  /** The filters are the parameters that can ask for something, each once and in their order: the j-th is that of
      parameter `at[j]`. */
  ghost predicate Selected(ps: seq<Param>, allowed: set<string>, fs: seq<Filter>, at: seq<nat>) {
    |at| == |fs| &&
    (forall j :: 0 <= j < |at| ==> at[j] < |ps| && Kept(ps[at[j]], allowed) && Stands(fs[j], ps[at[j]])) &&
    (forall i, j :: 0 <= i < j < |at| ==> at[i] < at[j]) &&
    (forall i :: 0 <= i < |ps| && Kept(ps[i], allowed) ==> i in at)
  }

  lemma SelectedNext(ps: seq<Param>, p: Param, allowed: set<string>, fs: seq<Filter>, f: Filter, at: seq<nat>)
    requires Selected(ps, allowed, fs, at) && Kept(p, allowed) && Stands(f, p)
    ensures Selected(ps + [p], allowed, fs + [f], at + [|ps|])
  {
    var at' := at + [|ps|];
    forall i | 0 <= i < |ps + [p]| && Kept((ps + [p])[i], allowed) ensures i in at' {
      if i == |ps| { assert at'[|at|] == i; } else { assert i in at; }
    }
  }

  lemma SelectedSkips(ps: seq<Param>, p: Param, allowed: set<string>, fs: seq<Filter>, at: seq<nat>)
    requires Selected(ps, allowed, fs, at) && !Kept(p, allowed)
    ensures Selected(ps + [p], allowed, fs, at)
  {
  }

  lemma {:induction false} SurvivorsStand(ps: seq<Param>, allowed: set<string>) returns (at: seq<nat>)
    ensures Selected(ps, allowed, Survivors(ps, allowed), at)
  {
    at := [];
    if ps != [] {
      var n := |ps| - 1;
      var before, p := ps[..n], ps[n];
      at := SurvivorsStand(before, allowed);
      SurvivorMeans(p, allowed);
      assert ps == before + [p];
      if Kept(p, allowed) {
        var f := Survivor(p, allowed)[0];
        assert f in Survivor(p, allowed) && Survivor(p, allowed) == [f];
        SelectedNext(before, p, allowed, Survivors(before, allowed), f, at);
        at := at + [n];
      } else {
        SelectedSkips(before, p, allowed, Survivors(before, allowed), at);
        assert Survivors(before, allowed) + [] == Survivors(before, allowed);
      }
    }
  }

  function Survivors(ps: seq<Param>, allowed: set<string>): (fs: seq<Filter>)
    ensures forall f :: f in fs ==> f.field in allowed && |f.args| == Arity(f.op)
  {
    if ps == [] then [] else Survivors(ps[..|ps| - 1], allowed) + Survivor(ps[|ps| - 1], allowed)
  }

  function CondOf(f: Filter, prefix: string): Cond { Cond(Col(prefix, f.field), f.op) }

  function Conds(fs: seq<Filter>, prefix: string): (cs: seq<Cond>)
    ensures |cs| == |fs| && forall i :: 0 <= i < |fs| ==> cs[i] == CondOf(fs[i], prefix)
  {
    seq(|fs|, i requires 0 <= i < |fs| => CondOf(fs[i], prefix))
  }

  function Args(fs: seq<Filter>): seq<Arg> {
    if fs == [] then [] else fs[0].args + Args(fs[1..])
  }

  // ---------------------------------------------------------------- what a statement means

  /** Whether a row meets a condition on a column, given its arguments. */
  type Row = (Col, Op, seq<Arg>) -> bool

  /** Each condition takes its arguments from the front. */
  function Truths(cs: seq<Cond>, args: seq<Arg>, row: Row): (bs: seq<bool>)
    requires Placeholders(cs) <= |args|
    ensures |bs| == |cs|
  {
    if cs == [] then []
    else
      var n := Arity(cs[0].op);
      [row(cs[0].col, cs[0].op, args[..n])] + Truths(cs[1..], args[n..], row)
  }

  /** AND binds more tightly than OR. */
  function Joined(bs: seq<bool>, ors: seq<bool>): bool
    requires |bs| == |ors| + 1
    decreases |bs|
  {
    if |bs| == 1 then bs[0]
    else if ors[0] then bs[0] || Joined(bs[1..], ors[1..])
    else Joined([bs[0] && bs[1]] + bs[2..], ors[1..])
  }

  function Selects(q: Query, args: seq<Arg>, row: Row): bool
    requires Placeholders(q.conds) <= |args| && (q.conds == [] || |q.conds| == |q.ors| + 1)
  {
    q.conds == [] || Joined(Truths(q.conds, args, row), q.ors)
  }

  /** What the filters ask of a row. */
  predicate Accepts(fs: seq<Filter>, or: bool, prefix: string, row: Row) {
    if fs == [] then true
    else if or then exists i :: 0 <= i < |fs| && row(Col(prefix, fs[i].field), fs[i].op, fs[i].args)
    else forall i :: 0 <= i < |fs| ==> row(Col(prefix, fs[i].field), fs[i].op, fs[i].args)
  }

  lemma {:induction false} UniformJoin(bs: seq<bool>, or: bool)
    requires bs != []
    ensures Joined(bs, Ors(or, |bs| - 1)) <==>
              if or then exists i :: 0 <= i < |bs| && bs[i] else forall i :: 0 <= i < |bs| ==> bs[i]
    decreases |bs|
  {
    if |bs| > 1 {
      OrsTail(or, |bs| - 1);
      assert Ors(or, |bs| - 1)[1..] == Ors(or, |bs| - 2);
      if or {
        UniformJoin(bs[1..], or);
        if i :| 0 <= i < |bs| && bs[i] {
          if i > 0 { assert bs[1..][i - 1]; }
        }
      } else {
        var folded := [bs[0] && bs[1]] + bs[2..];
        UniformJoin(folded, or);
        if forall i :: 0 <= i < |folded| ==> folded[i] {
          forall i | 0 <= i < |bs| ensures bs[i] {
            assert folded[0];
            if i > 1 { assert folded[i - 1] == bs[i]; }
          }
        }
        if forall i :: 0 <= i < |bs| ==> bs[i] {
          forall i | 0 <= i < |folded| ensures folded[i] { if i > 0 { assert folded[i] == bs[i + 1]; } }
        }
      }
    }
  }

  lemma {:induction false} ArgsFit(fs: seq<Filter>, prefix: string)
    requires forall f :: f in fs ==> |f.args| == Arity(f.op)
    ensures Placeholders(Conds(fs, prefix)) == |Args(fs)|
  {
    if fs != [] {
      ArgsFit(fs[1..], prefix);
      assert Conds(fs, prefix)[1..] == Conds(fs[1..], prefix);
    }
  }

  /** The first condition takes its own arguments, and leaves the others theirs. */
  lemma FirstTruth(c: Cond, cs: seq<Cond>, own: seq<Arg>, others: seq<Arg>, row: Row)
    requires |own| == Arity(c.op) && Placeholders(cs) <= |others|
    ensures Placeholders([c] + cs) <= |own + others|
    ensures Truths([c] + cs, own + others, row) == [row(c.col, c.op, own)] + Truths(cs, others, row)
  {
    assert ([c] + cs)[1..] == cs;
    assert (own + others)[..|own|] == own && (own + others)[|own|..] == others;
  }

  lemma AssocArgs(a: seq<Arg>, b: seq<Arg>, c: seq<Arg>)
    ensures (a + b) + c == a + (b + c)
  {
  }

  /** Conditions and arguments, cut after the first filter. */
  lemma FilterHead(fs: seq<Filter>, prefix: string, more: seq<Arg>) returns (cs: seq<Cond>, others: seq<Arg>)
    requires fs != []
    ensures cs == Conds(fs[1..], prefix) && others == Args(fs[1..]) + more
    ensures Conds(fs, prefix) == [CondOf(fs[0], prefix)] + cs
    ensures Args(fs) + more == fs[0].args + others
  {
    cs, others := Conds(fs[1..], prefix), Args(fs[1..]) + more;
    AssocArgs(fs[0].args, Args(fs[1..]), more);
  }

  /** What each condition asks of a row, with its own arguments. */
  function Asks(fs: seq<Filter>, prefix: string, row: Row): (bs: seq<bool>)
    ensures |bs| == |fs| && forall i :: 0 <= i < |fs| ==> bs[i] == row(Col(prefix, fs[i].field), fs[i].op, fs[i].args)
  {
    seq(|fs|, i requires 0 <= i < |fs| => row(Col(prefix, fs[i].field), fs[i].op, fs[i].args))
  }

  lemma AsksCons(fs: seq<Filter>, prefix: string, row: Row)
    requires fs != []
    ensures Asks(fs, prefix, row) ==
            [row(CondOf(fs[0], prefix).col, CondOf(fs[0], prefix).op, fs[0].args)] + Asks(fs[1..], prefix, row)
  {
  }

  lemma {:induction false} TruthsAre(fs: seq<Filter>, prefix: string, more: seq<Arg>, row: Row)
    requires forall f :: f in fs ==> |f.args| == Arity(f.op)
    ensures Placeholders(Conds(fs, prefix)) <= |Args(fs) + more|
    ensures Truths(Conds(fs, prefix), Args(fs) + more, row) == Asks(fs, prefix, row)
  {
    if fs != [] {
      TruthsAre(fs[1..], prefix, more, row);
      var cs, others := FilterHead(fs, prefix, more);
      FirstTruth(CondOf(fs[0], prefix), cs, fs[0].args, others, row);
      AsksCons(fs, prefix, row);
    }
  }

  lemma SelectsIsAccepts(fs: seq<Filter>, or: bool, prefix: string, q: Query, more: seq<Arg>, row: Row)
    requires forall f :: f in fs ==> |f.args| == Arity(f.op)
    requires q.conds == Conds(fs, prefix) && q.ors == OrsOf(q.conds, or)
    ensures Placeholders(q.conds) == |Args(fs)|
    ensures Selects(q, Args(fs) + more, row) == Accepts(fs, or, prefix, row)
  {
    ArgsFit(fs, prefix);
    TruthsAre(fs, prefix, more, row);
    if fs != [] {
      var bs := Truths(q.conds, Args(fs) + more, row);
      UniformJoin(bs, or);
      if or {
        if i :| 0 <= i < |bs| && bs[i] { assert row(Col(prefix, fs[i].field), fs[i].op, fs[i].args); }
      }
    }
  }

  // ---------------------------------------------------------------- the builders

  lemma ArgsSnoc(fs: seq<Filter>, f: Filter)
    ensures Args(fs + [f]) == Args(fs) + f.args
  {
    if fs == [] {
      assert (fs + [f])[1..] == [];
    } else {
      ArgsSnoc(fs[1..], f);
      assert (fs + [f])[1..] == fs[1..] + [f];
    }
  }

  lemma Dropped(ps: seq<Param>, i: nat, allowed: set<string>)
    requires i < |ps| && Survivor(ps[i], allowed) == []
    ensures Survivors(ps[..i + 1], allowed) == Survivors(ps[..i], allowed)
  {
    assert ps[..i + 1][..i] == ps[..i];
  }

  lemma OneMoreText(before: seq<Filter>, f: Filter, prefix: string)
    ensures CondTexts(Conds(before + [f], prefix)) == CondTexts(Conds(before, prefix)) + [CondText(CondOf(f, prefix))]
  {
  }

  lemma KeptNext(ps: seq<Param>, i: nat, allowed: set<string>, prefix: string, f: Filter)
    requires i < |ps| && Survivor(ps[i], allowed) == [f]
    ensures var before, after := Survivors(ps[..i], allowed), Survivors(ps[..i + 1], allowed);
      && CondTexts(Conds(after, prefix)) == CondTexts(Conds(before, prefix)) + [CondText(CondOf(f, prefix))]
      && Args(after) == Args(before) + f.args
  {
    assert ps[..i + 1][..i] == ps[..i];
    OneMoreText(Survivors(ps[..i], allowed), f, prefix);
    ArgsSnoc(Survivors(ps[..i], allowed), f);
  }

  /** BuildWhere: the surviving filters in order, joined by one joiner, and their arguments in order. */
  method BuildWhere(ps: seq<Param>, logic: string, allowed: set<string>, prefix: string) returns (w: Where)
    ensures var fs := Survivors(ps, allowed);
      w == Where(JoinText(CondTexts(Conds(fs, prefix)), Joiner(IsOr(logic))), Args(fs))
  {
    var conds: seq<string>, values: seq<Arg> := [], [];
    for i := 0 to |ps|
      invariant conds == CondTexts(Conds(Survivors(ps[..i], allowed), prefix))
      invariant values == Args(Survivors(ps[..i], allowed))
    {
      var p := ps[i];
      if SkipValue(p.value) || p.field !in allowed {
        Dropped(ps, i, allowed);
        continue;
      }
      var asked := Translate(p.operator, p.value);
      if asked.None? {
        Dropped(ps, i, allowed);
        continue;
      }
      var (op, args) := asked.value;
      KeptNext(ps, i, allowed, prefix, Filter(p.field, op, args));
      conds := conds + [QuoteCol(Col(prefix, p.field)) + OpText(op)];
      values := values + args;
    }
    assert ps[..|ps|] == ps;
    if |conds| == 0 { return Where("", []); }
    w := Where(JoinText(conds, Joiner(IsOr(logic))), values);
  }

  /** The switch over operators. */
  method Translate(operator: string, v: Value) returns (r: Option<(Op, seq<Arg>)>)
    ensures r == Asked(operator, v)
  {
    match operator {
      case "is" => r := Compare(Eq, v);
      case "=" => r := Compare(Eq, v);
      case "begins" => r := Pattern("", v, "%");
      case "contains" => r := Pattern("%", v, "%");
      case "ends" => r := Pattern("%", v, "");
      case "between" => r := Range(v);
      case ">" => r := Compare(Gt, v);
      case "more" => r := Compare(Gt, v);
      case ">=" => r := Compare(Ge, v);
      case "<" => r := Compare(Lt, v);
      case "less" => r := Compare(Lt, v);
      case "<=" => r := Compare(Le, v);
      case _ => r := None;
    }
  }

  function Orders(sorts: seq<Sort>, allowed: set<string>, prefix: string): (os: seq<Order>)
    ensures forall o :: o in os ==> o.col.field in allowed && o.col.prefix == prefix
  {
    if sorts == [] then []
    else
      var s := sorts[|sorts| - 1];
      Orders(sorts[..|sorts| - 1], allowed, prefix) +
      (if s.field in allowed then [Order(Col(prefix, s.field), Text.SameFold(s.direction, "asc"))] else [])
  }

  lemma OrIsSpelt(logic: string)
    ensures IsOr(logic) <==> Text.Spells(logic, "OR")
  {
    Text.FoldIffSpells(logic, "OR");
  }

  /** The orders are the sorts by allowed columns, each once and in their order, ascending exactly if the direction is
      spelt asc: the j-th is that of sort `at[j]`. */
  ghost predicate Ranked(sorts: seq<Sort>, allowed: set<string>, prefix: string, os: seq<Order>, at: seq<nat>) {
    |at| == |os| &&
    (forall j :: 0 <= j < |at| ==>
       at[j] < |sorts| && sorts[at[j]].field in allowed && os[j].col == Col(prefix, sorts[at[j]].field) &&
       (os[j].asc <==> Text.Spells(sorts[at[j]].direction, "asc"))) &&
    (forall i, j :: 0 <= i < j < |at| ==> at[i] < at[j]) &&
    (forall i :: 0 <= i < |sorts| && sorts[i].field in allowed ==> i in at)
  }

  lemma RankedNext(sorts: seq<Sort>, s: Sort, allowed: set<string>, prefix: string, os: seq<Order>, o: Order,
                   at: seq<nat>)
    requires Ranked(sorts, allowed, prefix, os, at) && s.field in allowed
    requires o.col == Col(prefix, s.field) && (o.asc <==> Text.Spells(s.direction, "asc"))
    ensures Ranked(sorts + [s], allowed, prefix, os + [o], at + [|sorts|])
  {
    var at' := at + [|sorts|];
    forall i | 0 <= i < |sorts + [s]| && (sorts + [s])[i].field in allowed ensures i in at' {
      if i == |sorts| { assert at'[|at|] == i; } else { assert i in at; }
    }
  }

  lemma {:induction false} OrdersRank(sorts: seq<Sort>, allowed: set<string>, prefix: string) returns (at: seq<nat>)
    ensures Ranked(sorts, allowed, prefix, Orders(sorts, allowed, prefix), at)
  {
    at := [];
    if sorts != [] {
      var n := |sorts| - 1;
      var before, s := sorts[..n], sorts[n];
      at := OrdersRank(before, allowed, prefix);
      assert sorts == before + [s];
      if s.field in allowed {
        Text.FoldIffSpells(s.direction, "asc");
        RankedNext(before, s, allowed, prefix, Orders(before, allowed, prefix),
                   Order(Col(prefix, s.field), Text.SameFold(s.direction, "asc")), at);
        at := at + [n];
      } else {
        assert Orders(before, allowed, prefix) + [] == Orders(before, allowed, prefix);
      }
    }
  }

  function OrElse(os: seq<Order>, fallback: Order): (r: seq<Order>)
    ensures r != []
  {
    if os == [] then [fallback] else os
  }

  /** BuildOrderBy: never empty. */
  method BuildOrderBy(sorts: seq<Sort>, allowed: set<string>, fallback: Order, prefix: string) returns (sql: string)
    ensures sql == JoinText(OrderTexts(OrElse(Orders(sorts, allowed, prefix), fallback)), ", ")
  {
    var parts: seq<string> := [];
    for i := 0 to |sorts|
      invariant parts == OrderTexts(Orders(sorts[..i], allowed, prefix))
    {
      var s := sorts[i];
      ghost var os := Orders(sorts[..i], allowed, prefix);
      assert sorts[..i + 1][..i] == sorts[..i];
      if s.field !in allowed {
        assert os + [] == os;
        continue;
      }
      var o := Order(Col(prefix, s.field), Text.SameFold(s.direction, "asc"));
      assert OrderTexts(os + [o]) == OrderTexts(os) + [OrderText(o)];
      parts := parts + [OrderText(o)];
    }
    assert sorts[..|sorts|] == sorts;
    if |parts| == 0 {
      assert OrderTexts([fallback]) == [OrderText(fallback)];
      return OrderText(fallback);
    }
    sql := JoinText(parts, ", ");
  }

  // ---------------------------------------------------------------- the page

  /** A conversion toward zero; what a number outside 64 bits becomes depends on the machine. */
  function Truncate(n: real, outside: int): (t: int)
    ensures 0.0 <= n < 9223372036854775808.0 ==> t as real <= n < t as real + 1.0
    ensures -9223372036854775808.0 <= n <= 0.0 ==> t as real - 1.0 < n <= t as real
  {
    var t := if n >= 0.0 then n.Floor else -((-n).Floor);
    if Numbers.MIN_INT64 <= t <= Numbers.MAX_INT64 then t else outside
  }

  function CoerceInt(v: Value, outside: int): Option<int> {
    match v
    case Num(n, _) => Some(Truncate(n, outside))
    case Str(s) => Numbers.ParseInt(Text.Trim(s))
    case _ => None
  }

  /** Whatever is asked for, the page is bounded; a limit in the bounds, 0 among them, is honoured. */
  function LimitOffset(limit: Value, offset: Value, outside: int): (r: (int, int, bool))
    ensures 0 <= r.0 <= 1000 && 0 <= r.1
    ensures var n := CoerceInt(limit, outside);
      && (r.2 <==> n.Some? && !(0 <= n.value <= 1000))
      && (n.Some? && 0 <= n.value <= 1000 ==> r.0 == n.value)
      && (n.Some? && n.value > 1000 ==> r.0 == MAX_LIMIT)
      && (n.None? || n.value < 0 ==> r.0 == 100)
    ensures var m := CoerceInt(offset, outside);
      if m.Some? && m.value >= 0 then r.1 == m.value else r.1 == 0
  {
    var n := CoerceInt(limit, outside);
    var m := CoerceInt(offset, outside);
    var off := if m.None? || m.value < 0 then 0 else m.value;
    if n.None? then (DEFAULT_LIMIT, off, false)
    else if n.value < 0 then (DEFAULT_LIMIT, off, true)
    else if n.value > MAX_LIMIT then (MAX_LIMIT, off, true)
    else (n.value, off, false)
  }

  // ---------------------------------------------------------------- the statements

  datatype Request = Request(search: seq<Param>, logic: string, sorts: seq<Sort>, limit: Value, offset: Value)

  datatype Statement = Statement(sql: string, args: seq<Arg>)

  /** A statement that begins with `head`, read by SQL's rules, filters exactly as the request's surviving
      filters do, names allowed columns only, and has one placeholder for each argument. */
  ghost predicate Faithful(st: Statement, head: string, r: Request, allowed: set<string>, prefix: string,
                           fallback: Order, paged: bool)
  {
    Starts(st.sql, head) &&
    match ReadQuery(st.sql[|head|..])
    case None => false
    case Some(q) =>
      var fs := Survivors(r.search, allowed);
      && q.paged == paged
      && Placeholders(q.conds) + (if paged then 2 else 0) == |st.args|
      && Args(fs) <= st.args
      && (q.conds == [] || |q.conds| == |q.ors| + 1)
      && (forall row: Row :: Selects(q, st.args, row) == Accepts(fs, IsOr(r.logic), prefix, row))
      && (forall c :: c in q.conds ==> c.col.prefix == prefix && c.col.field in allowed)
      && q.orders == (if paged then OrElse(Orders(r.sorts, allowed, prefix), fallback) else [])
  }

  lemma Reads(head: string, r: Request, allowed: set<string>, prefix: string, fallback: Order, more: seq<Arg>)
    requires |more| == 0 || |more| == 2
    ensures var fs, or := Survivors(r.search, allowed), IsOr(r.logic);
      var os := OrElse(Orders(r.sorts, allowed, prefix), fallback);
      var text := if |more| == 2 then PageText(Conds(fs, prefix), or, os) else WhereText(Conds(fs, prefix), or);
      Faithful(Statement(head + text, Args(fs) + more), head, r, allowed, prefix, fallback, |more| == 2)
  {
    var fs, or := Survivors(r.search, allowed), IsOr(r.logic);
    var os := OrElse(Orders(r.sorts, allowed, prefix), fallback);
    var cs := Conds(fs, prefix);
    PageStatementIsRead(cs, or, os);
    CountStatementIsRead(cs, or);
    var q := Query(cs, OrsOf(cs, or), if |more| == 2 then os else [], |more| == 2);
    var text := if |more| == 2 then PageText(cs, or, os) else WhereText(cs, or);
    StartsCat(head, text);
    ArgsFit(fs, prefix);
    forall row: Row ensures Selects(q, Args(fs) + more, row) == Accepts(fs, or, prefix, row) {
      SelectsIsAccepts(fs, or, prefix, q, more, row);
    }
  }

  /** The two statements of a search.  `count` and `page` are all that stands before the filter. */
  method Search(count: string, page: string, r: Request, allowed: set<string>, prefix: string, fallback: Order,
                outside: int)
    returns (total: Statement, rows: Statement)
    ensures Faithful(total, count, r, allowed, prefix, fallback, false)
    ensures Faithful(rows, page, r, allowed, prefix, fallback, true)
    ensures total.args == Args(Survivors(r.search, allowed))
    ensures |rows.args| == |total.args| + 2 && rows.args[..|total.args|] == total.args
    ensures
      var limit, offset := rows.args[|total.args|], rows.args[|total.args| + 1];
      && limit.Whole? && 0 <= limit.i <= 1000 && offset.Whole? && 0 <= offset.i
      && limit.i == LimitOffset(r.limit, r.offset, outside).0 && offset.i == LimitOffset(r.limit, r.offset, outside).1
  {
    var w := BuildWhere(r.search, r.logic, allowed, prefix);
    var whereSQL := "";
    if w.sql != "" { whereSQL := WHERE + w.sql; }
    ghost var cs := Conds(Survivors(r.search, allowed), prefix);
    NeverEmpty(cs, IsOr(r.logic));
    assert whereSQL == WhereText(cs, IsOr(r.logic));
    total := Statement(count + whereSQL, w.values);
    Reads(count, r, allowed, prefix, fallback, []);
    assert w.values + [] == w.values;
    var (limit, offset, _) := LimitOffset(r.limit, r.offset, outside);
    var orderBy := BuildOrderBy(r.sorts, allowed, fallback, prefix);
    rows := Statement(page + (whereSQL + ORDER_BY + orderBy + LIMIT), w.values + [Whole(limit), Whole(offset)]);
    Reads(page, r, allowed, prefix, fallback, [Whole(limit), Whole(offset)]);
  }

  lemma NeverEmpty(cs: seq<Cond>, or: bool)
    ensures JoinText(CondTexts(cs), Joiner(or)) == "" <==> cs == []
  {
    if cs != [] { assert |CondText(cs[0])| > 0; }
  }

  const ID_DESC := Order(Col("", "id"), false)

  /** SearchTable */
  method SearchTable(table: string, r: Request, allowed: set<string>, outside: int)
    returns (total: Statement, rows: Statement)
    ensures Faithful(total, "SELECT COUNT(*) FROM " + Quote(table), r, allowed, "", ID_DESC, false)
    ensures Faithful(rows, "SELECT * FROM " + Quote(table), r, allowed, "", ID_DESC, true)
    ensures rows.args[..|rows.args| - 2] == total.args
  {
    total, rows := Search("SELECT COUNT(*) FROM " + Quote(table), "SELECT * FROM " + Quote(table), r, allowed, "",
                          ID_DESC, outside);
  }

  /** SearchHashLookups: the columns are qualified by the alias. */
  method SearchHashLookups(from: string, select: string, r: Request, allowed: set<string>, outside: int)
    returns (total: Statement, rows: Statement)
    ensures Faithful(total, "SELECT COUNT(*)" + from, r, allowed, "h", Order(Col("h", "id"), false), false)
    ensures Faithful(rows, select + from, r, allowed, "h", Order(Col("h", "id"), false), true)
    ensures rows.args[..|rows.args| - 2] == total.args
  {
    total, rows := Search("SELECT COUNT(*)" + from, select + from, r, allowed, "h", Order(Col("h", "id"), false),
                          outside);
  }
}
