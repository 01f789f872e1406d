/**
  A managed gateway pulling, applying and booting its configuration
  (mailgw-go/internal/node/agent.go).

  Loading and applying a configuration is all or nothing; whether it succeeds is a parameter, and so
  is what the console answers and which statement of the store fails.
 */
module Agent {
  import opened ConfigStore
  import opened Options

  const APPLY_RETRY_BACKOFF := 300

  /** Why a configuration does not load or apply, if it does not. */
  type Verdict = Config -> Option<string>

  /** Which statements of the store work. */
  datatype Faults = Faults(desired: bool, applied: bool, cached: bool, save: bool, prune: bool, mark: bool,
                           markError: bool)

  // ---------------------------------------------------------------- what a boot comes to

  /** What bootConfig picks, by version. */
  function BootPick(s: Store, applied: Option<int>): Option<int> {
    if s.desired != 0 && s.desired in s.rows then Some(s.desired) else applied
  }

  /** What runs after a boot: the pick if it applies, else the applied configuration if that was not the pick. */
  function Booted(s: Store, applied: Option<int>, verdict: Verdict): Option<Config>
    requires applied.Some? ==> applied.value in s.rows
  {
    match BootPick(s, applied)
    case None => None
    case Some(v) =>
      if verdict(ConfigOf(s, v)).None? then Some(ConfigOf(s, v))
      else if applied.Some? && applied.value != v && verdict(ConfigOf(s, applied.value)).None? then
        Some(ConfigOf(s, applied.value))
      else None
  }

  /** What a poll sets out to apply: the bytes held for `want` if their digest is the console's, else what the
      console sends, whatever version that is. */
  function PullPick(s: Store, want: int, sha: Option<string>, response: Option<Config>): Option<Config> {
    if want in s.rows && (sha.None? || s.rows[want].sha == sha.value) then Some(ConfigOf(s, want)) else response
  }

  predicate AllWork(f: Faults) {
    f.desired && f.applied && f.cached && f.save && f.prune && f.mark && f.markError
  }

  /** One poll, as the loop makes it. */
  datatype Poll = Poll(want: int, sha: Option<string>, response: Option<Config>, verdict: Verdict, now: int,
                       faults: Faults)

  class Gateway {
    var store: Store
    /** What is running; None before anything was applied. */
    var running: Option<Config>
    var failedVersion: int
    var failedUntil: int
    /** History: every state of the store, from the first boot ever, and the operations between. */
    ghost var states: seq<Store>
    ghost var ops: seq<Op>

    ghost predicate Valid()
      reads this
    {
      IsRun(states, ops) && store == states[|ops|]
    }

    /** What the store says was applied last. */
    ghost function Applied(): Option<int>
      requires Valid()
      reads this
      ensures Applied().Some? ==> Applied().value in store.rows
    {
      StoreRemembers(states, ops);
      LastMarked(states, ops)
    }

    /** A process starts on whatever the last one left: `states` and `ops` may be any crash point of it. */
    constructor (store: Store, ghost states: seq<Store>, ghost ops: seq<Op>)
      requires IsRun(states, ops) && store == states[|ops|]
      ensures Valid() && this.store == store && this.states == states && this.ops == ops && running.None?
      ensures failedVersion == 0
    {
      this.store, this.states, this.ops := store, states, ops;
      running, failedVersion, failedUntil := None, 0, 0;
    }

    /** One statement takes effect. */
    ghost method Record(op: Op, was: Store)
      requires IsRun(states, ops) && was == states[|ops|] && store == Do(was, op)
      modifies this`states, this`ops
      ensures Valid() && ops == old(ops) + [op] && states == old(states) + [store]
      ensures LastMarked(states, ops) ==
                if op.MarkApplied? && op.version in was.rows then Some(op.version)
                else LastMarked(old(states), old(ops))
      ensures LastAsked(ops) == if op.SetDesired? then op.version else LastAsked(old(ops))
    {
      ghost var ss, os := states, ops;
      states, ops := states + [store], ops + [op];
      forall k | 0 <= k < |ops| ensures StepAt(states, ops, k) {
        if k < |os| { assert StepAt(ss, os, k); }
      }
      assert states[..|os| + 1] == ss && ops[..|os|] == os;
    }

    method SetDesired(version: int)
      requires Valid()
      modifies this`store, this`states, this`ops
      ensures Valid() && store == old(store).(desired := version) && Applied() == old(Applied())
      ensures states == old(states) + [store] && ops == old(ops) + [ConfigStore.SetDesired(version)]
    {
      ghost var was := store;
      store := store.(desired := version);
      Record(ConfigStore.SetDesired(version), was);
    }

    method Upsert(c: Config, now: int)
      requires Valid()
      modifies this`store, this`states, this`ops
      ensures Valid() && store == Do(old(store), ConfigStore.Upsert(c, now)) && Applied() == old(Applied())
      ensures states == old(states) + [store] && ops == old(ops) + [ConfigStore.Upsert(c, now)]
    {
      ghost var was := store;
      var row := if c.version in store.rows
        then store.rows[c.version].(sha := c.sha, bundle := c.bundle, fetchedAt := now, error := "")
        else Row(c.sha, c.bundle, now, None, 0, "");
      store := store.(rows := store.rows[c.version := row]);
      Record(ConfigStore.Upsert(c, now), was);
    }

    method Prune()
      requires Valid()
      modifies this`store, this`states, this`ops
      ensures Valid() && store == Do(old(store), ConfigStore.Prune) && Applied() == old(Applied())
      ensures states == old(states) + [store] && ops == old(ops) + [ConfigStore.Prune]
    {
      ghost var was := store;
      store := store.(rows := Pruned(store.rows));
      Record(ConfigStore.Prune, was);
    }

    method MarkError(version: int, message: string)
      requires Valid()
      modifies this`store, this`states, this`ops
      ensures Valid() && store == Do(old(store), ConfigStore.MarkError(version, message)) && Applied() == old(Applied())
      ensures states == old(states) + [store] && ops == old(ops) + [ConfigStore.MarkError(version, message)]
    {
      ghost var was := store;
      if version in store.rows {
        store := store.(rows := store.rows[version := store.rows[version].(error := message)]);
      }
      Record(ConfigStore.MarkError(version, message), was);
    }

    /** The largest applied_seq, as the UPDATE of MarkApplied computes it. */
    method NextOrder() returns (m: int)
      requires Valid()
      ensures m == MaxOrder(store.rows) + 1
    {
      StoreRemembers(states, ops);
      m := 0;
      var todo := store.rows.Keys;
      while |todo| > 0
        invariant todo <= store.rows.Keys && m >= 0
        invariant forall v :: v in store.rows && v !in todo ==> store.rows[v].order <= m
        invariant m == 0 || exists v :: v in store.rows && store.rows[v].order == m
        decreases |todo|
      {
        var v := Pick(todo);
        todo := todo - {v};
        if store.rows[v].order > m { m := store.rows[v].order; }
      }
      MaxOrderIs(store.rows, m);
      m := m + 1;
    }

    method MarkApplied(version: int, now: int)
      requires Valid()
      modifies this`store, this`states, this`ops
      ensures Valid() && store == Do(old(store), ConfigStore.MarkApplied(version, now))
      ensures Applied() == if version in old(store).rows then Some(version) else old(Applied())
      ensures states == old(states) + [store] && ops == old(ops) + [ConfigStore.MarkApplied(version, now)]
    {
      ghost var was := store;
      if version in store.rows {
        var next := NextOrder();
        store := store.(rows := store.rows[version :=
          store.rows[version].(appliedAt := Some(now), order := next, error := "")]);
      }
      Record(ConfigStore.MarkApplied(version, now), was);
    }

    /** The query of AppliedConfig. */
    method AppliedConfig() returns (a: Option<int>)
      requires Valid()
      ensures a == Applied() && (a.Some? ==> a.value in store.rows)
    {
      a := None;
      var todo := store.rows.Keys;
      var rows := store.rows;
      while |todo| > 0
        invariant todo <= rows.Keys
        invariant a.None? ==> forall v :: v in rows && v !in todo ==> rows[v].appliedAt.None?
        invariant a.Some? ==> a.value in rows && rows[a.value].appliedAt.Some?
        invariant a.Some? ==>
                    forall v :: v in rows && v !in todo && rows[v].appliedAt.Some? ==> !After(rows, v, a.value)
        decreases |todo|
      {
        var v := Pick(todo);
        todo := todo - {v};
        if rows[v].appliedAt.Some? && (a.None? || After(rows, v, a.value)) { a := Some(v); }
      }
      StoreRemembers(states, ops);
      AppliedIsUnique(rows, a, LastMarked(states, ops));
    }

    // -------------------------------------------------------------- the agent

    /** Load and apply; the single place a cached configuration becomes the running one.  On a failure what runs
        and what is recorded as applied stay; on success it runs, and is recorded if the store lets it. */
    method ApplyCached(c: Config, verdict: Verdict, now: int, faults: Faults) returns (ok: bool)
      requires Valid()
      modifies this
      ensures Valid() && ok == verdict(c).None? && old(ops) <= ops && old(states) <= states
      ensures store.desired == old(store.desired) && store.rows.Keys == old(store.rows.Keys)
      ensures forall v :: v in store.rows ==> ConfigOf(store, v) == old(ConfigOf(store, v))
      ensures running == if ok then Some(c) else old(running)
      ensures Applied() == if ok && faults.mark && c.version in old(store.rows) then Some(c.version) else old(Applied())
      ensures failedVersion == if ok then 0 else c.version
      ensures failedUntil == if ok then old(failedUntil) else now + APPLY_RETRY_BACKOFF
      ensures !ok && faults.markError && c.version in old(store.rows) ==>
                store.rows[c.version].error == verdict(c).value
    {
      var failure := verdict(c);
      if failure.Some? {
        if faults.markError { MarkError(c.version, failure.value); }
        failedVersion, failedUntil := c.version, now + APPLY_RETRY_BACKOFF;
        return false;
      }
      running := Some(c);
      if faults.mark { MarkApplied(c.version, now); }
      failedVersion := 0;
      ok := true;
    }

    /** bootConfig, which only reads. */
    method BootConfig(faults: Faults) returns (c: Option<int>)
      requires Valid()
      ensures c.Some? ==> c.value in store.rows
      ensures faults.applied && faults.desired && faults.cached ==> c == BootPick(store, Applied())
      ensures faults.applied ==> c == BootPick(store, Applied()) || c == Applied()
    {
      if !faults.applied { return None; }
      var applied := AppliedConfig();
      if !faults.desired { return applied; }
      if store.desired == 0 { return applied; }
      if !faults.cached { return applied; }
      if store.desired in store.rows { return Some(store.desired); }
      c := applied;
    }

    /** A boot runs the version the console last asked for if it is cached and applies, otherwise the one that
        applied last if it still applies. */
    method BootFromCache(verdict: Verdict, now: int, faults: Faults)
      requires Valid() && running.None?
      modifies this
      ensures Valid() && store.desired == old(store.desired) && old(ops) <= ops && old(states) <= states
      ensures faults.applied && faults.desired && faults.cached ==>
                running == Booted(old(store), old(Applied()), verdict)
      ensures Applied() != old(Applied()) ==> running.Some? && Applied() == Some(running.value.version)
    {
      StoreRemembers(states, ops);
      var cached := BootConfig(faults);
      if cached.None? { return; }
      var first := ConfigOf(store, cached.value);
      var ok := ApplyCached(first, verdict, now, faults);
      if ok { return; }
      if !faults.applied { return; }
      var applied := AppliedConfig();
      if applied.None? || applied.value == cached.value { return; }
      ok := ApplyCached(ConfigOf(store, applied.value), verdict, now, faults);
    }

    /** SIGHUP. */
    method ApplyFromCache(verdict: Verdict, now: int, faults: Faults) returns (ok: bool)
      requires Valid()
      modifies this
      ensures Valid() && old(ops) <= ops && old(states) <= states
      ensures !ok ==> running == old(running) && Applied() == old(Applied())
      ensures ok ==> running.Some? && running.value.version in old(store.rows)
      // with the store readable, the pick of a boot is applied, and a failure is recorded and backed off
      ensures faults.applied && faults.desired && faults.cached ==>
        match BootPick(old(store), old(Applied()))
        case None => !ok && store == old(store) && failedVersion == old(failedVersion)
        case Some(v) =>
          && v in old(store.rows) && v in store.rows
          && var c := ConfigOf(old(store), v);
          && ok == verdict(c).None? && running == (if ok then Some(c) else old(running))
          && failedVersion == (if ok then 0 else v)
          && (!ok ==> failedUntil == now + APPLY_RETRY_BACKOFF)
          && (!ok && faults.markError ==> store.rows[v].error == verdict(c).value)
    {
      var c := BootConfig(faults);
      if c.None? { return false; }
      ok := ApplyCached(ConfigOf(store, c.value), verdict, now, faults);
    }

    /** SaveConfig: two statements, and the second can fail on its own. */
    method SaveConfig(c: Config, now: int, faults: Faults) returns (ok: bool)
      requires Valid()
      modifies this`store, this`states, this`ops
      ensures Valid() && old(ops) <= ops && old(states) <= states && Applied() == old(Applied())
      ensures store.desired == old(store.desired)
      ensures ok == (faults.save && faults.prune)
      ensures ok ==> store == Do(Do(old(store), ConfigStore.Upsert(c, now)), ConfigStore.Prune)
    {
      if !faults.save { return false; }
      Upsert(c, now);
      if !faults.prune { return false; }
      Prune();
      ok := true;
    }

    /** The rest of a poll once there is a configuration to try: save it, then load and apply it. */
    method Adopt(c: Config, verdict: Verdict, now: int, faults: Faults)
      requires Valid()
      modifies this
      ensures Valid() && old(ops) <= ops && old(states) <= states && LastAsked(ops) == LastAsked(old(ops))
      ensures running == old(running) || (running == Some(c) && verdict(c).None?)
      ensures Applied() == old(Applied()) || (running == Some(c) && Applied() == Some(c.version))
      ensures AllWork(faults) && verdict(c).None? ==>
                running == Some(c) && (Applied() == Some(c.version) <==> Survives(old(store), c.version, now))
      ensures AllWork(faults) && verdict(c).Some? ==>
                && running == old(running) && Applied() == old(Applied())
                && failedVersion == c.version && failedUntil == now + APPLY_RETRY_BACKOFF
                && (Survives(old(store), c.version, now) ==>
                      c.version in store.rows && store.rows[c.version].error == verdict(c).value)
    {
      Desired();
      ghost var before := store;
      var saved := SaveConfig(c, now, faults);
      Desired();
      if !saved { return; }
      SavedSurvives(before, c, now);
      AppliedWasMarked();
      var _ := ApplyCached(c, verdict, now, faults);
      Desired();
    }

    /** One poll in which the console wants version `want`, whose digest it says is `sha`; `response` is what it
        sends if asked for the configuration. */
    method Pull(want: int, sha: Option<string>, response: Option<Config>, verdict: Verdict, now: int, faults: Faults)
      requires Valid()
      modifies this
      ensures Valid() && old(ops) <= ops && old(states) <= states
      // what the console asked for is written down first
      ensures faults.desired ==> LastAsked(ops) == want && ops != old(ops) &&
                                 ops[|old(ops)|] == ConfigStore.SetDesired(want)
      // whatever happens, the running and the applied configuration change only by a success
      ensures running != old(running) ==> running.Some? && verdict(running.value).None?
      ensures Applied() != old(Applied()) ==> running.Some? && Applied() == Some(running.value.version)
      // a change is to the bytes held for that version if the console names no digest or theirs, and otherwise to
      // what the console sent
      ensures running != old(running) ==>
        if want in old(store.rows) && (sha.None? || sha.value == old(store.rows[want].sha))
        then running == Some(Config(want, old(store.rows[want].sha), old(store.rows[want].bundle)))
        else running == response
      // it is not tried again while it is backed off, nor when it is applied already
      ensures old(Applied()) == Some(want) || (old(failedVersion) == want && now < old(failedUntil)) ==>
                running == old(running) && store.rows == old(store.rows) && Applied() == old(Applied())
      // if nothing fails, the pick runs afterwards exactly if it ran already or another version is recorded as
      // applied; in the latter case it is the applied one exactly if it survived its save
      ensures
        var pick := PullPick(old(store), want, sha, response);
        AllWork(faults) && !(old(failedVersion) == want && now < old(failedUntil)) &&
        pick.Some? && verdict(pick.value).None? ==>
          && (running == pick <==> old(Applied()) != Some(want) || old(running) == pick)
          && (old(Applied()) != Some(want) ==>
                (Applied() == Some(pick.value.version) <==> Survives(old(store), pick.value.version, now)))
      // and if only the configuration is at fault, it is backed off, and the reason is kept with what was saved
      ensures
        var pick := PullPick(old(store), want, sha, response);
        AllWork(faults) && !(old(failedVersion) == want && now < old(failedUntil)) && old(Applied()) != Some(want) &&
        pick.Some? && verdict(pick.value).Some? ==>
          && running == old(running) && Applied() == old(Applied())
          && failedVersion == pick.value.version && failedUntil == now + 300
          && (Survives(old(store), pick.value.version, now) ==>
                pick.value.version in store.rows && store.rows[pick.value.version].error == verdict(pick.value).value)
    {
      if faults.desired { SetDesired(want); }
      Desired();
      assert faults.desired ==> ops[|old(ops)|] == ConfigStore.SetDesired(want);
      ghost var asked := ops;
      if !faults.applied { return; }
      var applied := AppliedConfig();
      if applied == Some(want) {
        failedVersion := 0;
        return;
      }
      if failedVersion == want && now < failedUntil { return; }
      if !faults.cached { return; }
      var c;
      if want in store.rows && (sha.None? || store.rows[want].sha == sha.value) {
        c := ConfigOf(store, want);
      } else if response.Some? {
        c := response.value;
      } else {
        return;
      }
      Adopt(c, verdict, now, faults);
    }

    /** The loop over polls. */
    method Run(polls: seq<Poll>)
      requires Valid()
      modifies this
      ensures Valid() && old(ops) <= ops && old(states) <= states
      ensures running != old(running) ==> running.Some?
      // as long as the console wants the version recorded as applied, nothing is tried
      ensures old(Applied()).Some? && (forall i :: 0 <= i < |polls| ==> polls[i].want == old(Applied()).value) ==>
                running == old(running) && Applied() == old(Applied())
    {
      for i := 0 to |polls|
        invariant Valid() && old(ops) <= ops && old(states) <= states
        invariant running != old(running) ==> running.Some?
        invariant old(Applied()).Some? && (forall j :: 0 <= j < i ==> polls[j].want == old(Applied()).value) ==>
                    running == old(running) && Applied() == old(Applied())
      {
        var p := polls[i];
        Pull(p.want, p.sha, p.response, p.verdict, p.now, p.faults);
      }
    }

    /** A process from its boot on.  If the boot of the configuration that is wanted and recorded as applied fails,
        nothing runs however often the console is asked for it, and whether or not it would load by then. */
    method Start(verdict: Verdict, now: int, faults: Faults, polls: seq<Poll>)
      requires Valid() && running.None?
      modifies this
      ensures Valid() && old(ops) <= ops && old(states) <= states
      ensures
        var v := old(store).desired;
        faults.applied && faults.desired && faults.cached && v != 0 && old(Applied()) == Some(v) &&
        verdict(ConfigOf(old(store), v)).Some? && (forall i :: 0 <= i < |polls| ==> polls[i].want == v) ==>
          running.None?
    {
      BootFromCache(verdict, now, faults);
      Run(polls);
    }

    lemma AppliedWasMarked()
      requires Valid()
      ensures IsApplied(store.rows, Applied())
    {
      StoreRemembers(states, ops);
    }

    lemma Desired()
      requires Valid()
      ensures LastAsked(ops) == store.desired
    {
      StoreRemembers(states, ops);
    }
  }

  method Pick<T>(vs: set<T>) returns (x: T)
    requires |vs| > 0
    ensures x in vs
  {
    x :| x in vs;
  }

  lemma MaxOrderIs(rows: map<int, Row>, m: int)
    requires Numbered(rows) && m >= 0 && IsMaxOrder(rows, m)
    ensures MaxOrder(rows) == m
  {
    var n := MaxOrder(rows);
  }

  // ---------------------------------------------------------------- restarts

  /** At every crash point of every history: a restart from there ends up running the version the console asked
      for last if its bytes are cached and apply, otherwise the last version marked as applied, which is cached,
      if it still applies; otherwise nothing. */
  lemma RestartAtAnyPoint(states: seq<Store>, ops: seq<Op>, k: nat, verdict: Verdict)
    requires IsRun(states, ops) && k <= |ops|
    ensures IsRun(states[..k + 1], ops[..k])
    ensures
      var s, asked, applied := states[k], LastAsked(ops[..k]), LastMarked(states[..k + 1], ops[..k]);
      var boots := (v: int) => v in s.rows && verdict(ConfigOf(s, v)).None?;
      && (applied.Some? ==> applied.value in s.rows)
      && Booted(s, applied, verdict) ==
           if asked != 0 && boots(asked) then Some(ConfigOf(s, asked))
           else if applied.Some? && boots(applied.value) then Some(ConfigOf(s, applied.value))
           else None
  {
    CrashPoint(states, ops, k);
    StoreRemembers(states[..k + 1], ops[..k]);
  }

  /** There is such a store, for every configuration: one pull brings it about. */
  lemma WantedAndApplied(c: Config, now: int) returns (states: seq<Store>, ops: seq<Op>)
    requires c.version != 0
    ensures IsRun(states, ops) && states[|ops|].desired == c.version && LastMarked(states, ops) == Some(c.version)
    ensures c.version in states[|ops|].rows && ConfigOf(states[|ops|], c.version) == c
  {
    ops := [SetDesired(c.version), Upsert(c, now), MarkApplied(c.version, now)];
    var s0 := Store(map[], 0);
    var s1 := Do(s0, ops[0]);
    var s2 := Do(s1, ops[1]);
    var s3 := Do(s2, ops[2]);
    states := [s0, s1, s2, s3];
    assert StepAt(states, ops, 0) && StepAt(states, ops, 1) && StepAt(states, ops, 2);
  }
}
