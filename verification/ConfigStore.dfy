/**
  The persistent side of a managed gateway: cached configurations, which one was applied last, and the
  version the console last asked for (mailgw-go/internal/store/config.go, settings.go).

  Each SQL statement is one atomic operation.  A crash leaves the store after some operation, so what
  holds after every operation holds at every crash point.
 */
module ConfigStore {
  import opened Options

  const KEEP_CONFIGS := 10

  /** A configuration as it is loaded. */
  datatype Config = Config(version: int, sha: string, bundle: string)

  /** `order` is applied_seq. */
  datatype Row = Row(sha: string, bundle: string, fetchedAt: int, appliedAt: Option<int>, order: int, error: string)

  /** `desired` is 0 when it has never been set. */
  datatype Store = Store(rows: map<int, Row>, desired: int)

  datatype Op =
    | SetDesired(version: int)
    | Upsert(config: Config, fetchedAt: int)   // the INSERT of SaveConfig
    | Prune                                    // its DELETE
    | MarkApplied(version: int, at: int)
    | MarkError(version: int, message: string)

  function ConfigOf(s: Store, version: int): Config
    requires version in s.rows
  {
    Config(version, s.rows[version].sha, s.rows[version].bundle)
  }

  /** `u` is fetched later than `v`, in the order of pruneConfigs. */
  predicate Later(rows: map<int, Row>, u: int, v: int)
    requires u in rows && v in rows
  {
    rows[u].fetchedAt > rows[v].fetchedAt || (rows[u].fetchedAt == rows[v].fetchedAt && u > v)
  }

  function LaterThan(rows: map<int, Row>, v: int): set<int>
    requires v in rows
  {
    set u | u in rows && Later(rows, u, v)
  }

  function Pruned(rows: map<int, Row>): map<int, Row> {
    map v | v in rows && (rows[v].appliedAt.Some? || |LaterThan(rows, v)| < KEEP_CONFIGS) :: rows[v]
  }

  /** COALESCE(MAX(applied_seq), 0), where no number is negative. */
  ghost predicate IsMaxOrder(rows: map<int, Row>, m: int) {
    (forall v :: v in rows ==> rows[v].order <= m) && (m == 0 || exists v :: v in rows && rows[v].order == m)
  }

  lemma Member<T>(vs: set<T>) returns (x: T)
    requires |vs| > 0
    ensures x in vs
  {
    x :| x in vs;
  }

  lemma MaxOrderExists(rows: map<int, Row>, vs: set<int>) returns (m: int)
    requires vs <= rows.Keys
    ensures (forall v :: v in vs ==> rows[v].order <= m) && m >= 0
    ensures m == 0 || exists v :: v in vs && rows[v].order == m
    decreases |vs|
  {
    m := 0;
    if |vs| > 0 {
      var x := Member(vs);
      m := MaxOrderExists(rows, vs - {x});
      if rows[x].order > m { m := rows[x].order; }
    }
  }

  ghost function MaxOrder(rows: map<int, Row>): (m: int)
    ensures IsMaxOrder(rows, m)
  {
    assert exists m :: IsMaxOrder(rows, m) by {
      var m := MaxOrderExists(rows, rows.Keys);
      assert IsMaxOrder(rows, m);
    }
    var m :| IsMaxOrder(rows, m);
    m
  }

  ghost function Do(s: Store, op: Op): Store {
    match op
    case SetDesired(v) => s.(desired := v)
    case Upsert(c, at) =>
      s.(rows := s.rows[c.version :=
        if c.version in s.rows then s.rows[c.version].(sha := c.sha, bundle := c.bundle, fetchedAt := at, error := "")
        else Row(c.sha, c.bundle, at, None, 0, "")])
    case Prune => s.(rows := Pruned(s.rows))
    case MarkApplied(v, at) =>
      if v in s.rows then
        s.(rows := s.rows[v := s.rows[v].(appliedAt := Some(at), order := MaxOrder(s.rows) + 1, error := "")])
      else s
    case MarkError(v, message) =>
      if v in s.rows then s.(rows := s.rows[v := s.rows[v].(error := message)]) else s
  }

  /** The order AppliedConfig picks the greatest of. */
  predicate After(rows: map<int, Row>, u: int, v: int)
    requires u in rows && v in rows && rows[u].appliedAt.Some? && rows[v].appliedAt.Some?
  {
    var (a, b) := (rows[u], rows[v]);
    a.order > b.order || (a.order == b.order && (a.appliedAt.value > b.appliedAt.value ||
                                         (a.appliedAt.value == b.appliedAt.value && u > v)))
  }

  /** `a` is what AppliedConfig answers. */
  ghost predicate IsApplied(rows: map<int, Row>, a: Option<int>) {
    match a
    case None => forall v :: v in rows ==> rows[v].appliedAt.None?
    case Some(v) =>
      v in rows && rows[v].appliedAt.Some? &&
      forall u :: u in rows && rows[u].appliedAt.Some? ==> !After(rows, u, v)
  }

  lemma AppliedIsUnique(rows: map<int, Row>, a: Option<int>, b: Option<int>)
    requires IsApplied(rows, a) && IsApplied(rows, b)
    ensures a == b
  {
  }

  // ---------------------------------------------------------------- runs

  ghost predicate StepAt(ss: seq<Store>, ops: seq<Op>, k: nat)
    requires k < |ops| < |ss|
  {
    ss[k + 1] == Do(ss[k], ops[k])
  }

  /** Any sequence of operations on a store that was empty. */
  ghost predicate IsRun(ss: seq<Store>, ops: seq<Op>) {
    |ss| == |ops| + 1 && ss[0] == Store(map[], 0) && forall k :: 0 <= k < |ops| ==> StepAt(ss, ops, k)
  }

  /** What the console asked for last, as far as it was recorded. */
  function LastAsked(ops: seq<Op>): int {
    if ops == [] then 0
    else if ops[|ops| - 1].SetDesired? then ops[|ops| - 1].version else LastAsked(ops[..|ops| - 1])
  }

  /** The last version recorded as applied while it was cached. */
  ghost function LastMarked(ss: seq<Store>, ops: seq<Op>): Option<int>
    requires |ss| == |ops| + 1
    decreases |ops|
  {
    if ops == [] then None
    else
      var n := |ops| - 1;
      if ops[n].MarkApplied? && ops[n].version in ss[n].rows then Some(ops[n].version)
      else LastMarked(ss[..n + 1], ops[..n])
  }

  /** An applied row's number is positive, and no two share one. */
  ghost predicate Numbered(rows: map<int, Row>) {
    (forall v :: v in rows ==> rows[v].order >= 0) &&
    (forall v :: v in rows && rows[v].appliedAt.Some? ==> rows[v].order > 0) &&
    (forall u, v :: u in rows && v in rows && rows[u].appliedAt.Some? && rows[v].appliedAt.Some? && u != v ==>
                      rows[u].order != rows[v].order)
  }

  lemma StepKeepsApplied(s: Store, op: Op, s': Store, a: Option<int>)
    requires Numbered(s.rows) && IsApplied(s.rows, a) && s' == Do(s, op)
    requires !(op.MarkApplied? && op.version in s.rows)
    ensures Numbered(s'.rows) && IsApplied(s'.rows, a)
  {
  }

  lemma MarkMovesApplied(s: Store, v: int, at: int, s': Store, a: Option<int>)
    requires Numbered(s.rows) && v in s.rows && s' == Do(s, MarkApplied(v, at))
    ensures Numbered(s'.rows) && IsApplied(s'.rows, Some(v))
  {
    var m := MaxOrder(s.rows);
    assert s.rows[v].order <= m;
  }

  /** A prefix of a run is a run: a crash point. */
  lemma CrashPoint(ss: seq<Store>, ops: seq<Op>, k: nat)
    requires IsRun(ss, ops) && k <= |ops|
    ensures IsRun(ss[..k + 1], ops[..k])
  {
    var tt, pp := ss[..k + 1], ops[..k];
    forall j | 0 <= j < k ensures StepAt(tt, pp, j) { assert StepAt(ss, ops, j); }
  }

  /** After every operation: the desired version is the last one recorded, and the applied configuration is the
      last one marked, whatever was fetched, refreshed, pruned or marked as failed since. */
  lemma {:induction false} StoreRemembers(ss: seq<Store>, ops: seq<Op>)
    requires IsRun(ss, ops)
    ensures ss[|ops|].desired == LastAsked(ops)
    ensures Numbered(ss[|ops|].rows) && IsApplied(ss[|ops|].rows, LastMarked(ss, ops))
    decreases |ops|
  {
    if ops != [] {
      var n := |ops| - 1;
      CrashPoint(ss, ops, n);
      StoreRemembers(ss[..n + 1], ops[..n]);
      assert StepAt(ss, ops, n);
      var a := LastMarked(ss[..n + 1], ops[..n]);
      if ops[n].MarkApplied? && ops[n].version in ss[n].rows {
        MarkMovesApplied(ss[n], ops[n].version, ops[n].at, ss[n + 1], a);
      } else {
        StepKeepsApplied(ss[n], ops[n], ss[n + 1], a);
      }
    }
  }

  /** A configuration that was ever applied is never evicted. */
  lemma {:induction false} AppliedStays(ss: seq<Store>, ops: seq<Op>, i: nat, k: nat, v: int)
    requires IsRun(ss, ops) && i <= k <= |ops| && v in ss[i].rows && ss[i].rows[v].appliedAt.Some?
    ensures v in ss[k].rows && ss[k].rows[v].appliedAt.Some?
  {
    if i < k {
      AppliedStays(ss, ops, i, k - 1, v);
      assert StepAt(ss, ops, k - 1);
    }
  }

  // ---------------------------------------------------------------- pruning

  lemma EarliestExists(rows: map<int, Row>, vs: set<int>) returns (e: int)
    requires |vs| > 0 && vs <= rows.Keys
    ensures e in vs && forall v :: v in vs && v != e ==> Later(rows, v, e)
    decreases |vs|
  {
    var x := Member(vs);
    var rest := vs - {x};
    if |rest| == 0 {
      e := x;
    } else {
      var e' := EarliestExists(rows, rest);
      e := if Later(rows, x, e') then e' else x;
    }
    assert forall v :: v in vs ==> v == x || v in rest;
  }

  /** Pruning leaves at most ten configurations that were never applied. */
  lemma PruneBounds(rows: map<int, Row>)
    ensures |set v | v in Pruned(rows) && rows[v].appliedAt.None?| <= 10
  {
    var kept := set v | v in Pruned(rows) && rows[v].appliedAt.None?;
    if |kept| > KEEP_CONFIGS {
      var e := EarliestExists(rows, kept);
      assert kept - {e} <= LaterThan(rows, e);
      Subset(kept - {e}, LaterThan(rows, e));
    }
  }

  lemma Subset(a: set<int>, b: set<int>)
    requires a <= b
    ensures |a| <= |b|
  {
    assert b == a + (b - a);
  }

  /** Whether a configuration fetched at `at` outlives the pruning that follows its own save: it was applied
      before, or fewer than ten others have a later fetch time, or the same one and a higher version. */
  predicate Survives(s: Store, version: int, at: int) {
    (version in s.rows && s.rows[version].appliedAt.Some?) ||
    |set u | u in s.rows && u != version &&
             (s.rows[u].fetchedAt > at || (s.rows[u].fetchedAt == at && u > version))| < 10
  }

  /** Saving keeps what was just saved exactly when it survives; a clock that went back can lose it. */
  lemma SavedSurvives(s: Store, c: Config, at: int)
    ensures var saved := Do(Do(s, Upsert(c, at)), Prune);
      && (c.version in saved.rows <==> Survives(s, c.version, at))
      && (c.version in saved.rows ==> ConfigOf(saved, c.version) == c)
  {
    var rows, v := Do(s, Upsert(c, at)).rows, c.version;
    assert LaterThan(rows, v) ==
           set u | u in s.rows && u != v && (s.rows[u].fetchedAt > at || (s.rows[u].fetchedAt == at && u > v));
  }

  /** With a clock that has not gone back it does, unless ten higher versions were fetched in the same second. */
  lemma NewestSurvives(s: Store, version: int, at: int)
    requires forall u :: u in s.rows && u != version ==> s.rows[u].fetchedAt <= at
    requires |set u | u in s.rows && s.rows[u].fetchedAt == at && u > version| < 10
    ensures Survives(s, version, at)
  {
    assert (set u | u in s.rows && u != version &&
                    (s.rows[u].fetchedAt > at || (s.rows[u].fetchedAt == at && u > version))) ==
           (set u | u in s.rows && s.rows[u].fetchedAt == at && u > version);
  }
}
