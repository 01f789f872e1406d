/**
  The resolver's cache of mail exchangers (mailgw-go/internal/deliver/mx.go).

  Times are nanoseconds.  The lookup's answer, the clock readings and the shuffle's draws are
  parameters.
 */
module MxCache {
  import opened Options
  import Bands
  import Text

  const SECOND := 1_000_000_000
  const DEFAULT_TTL := 300 * SECOND
  const NEGATIVE_TTL := 30 * SECOND
  const MAX_ENTRIES := 1024

  datatype Host = Host(name: string, pref: int)

  datatype MxError = EmptyDomain | NullMx | LookupFailed(code: int)

  datatype Record = Record(target: string, pref: int)

  /** What the lookup reports. */
  datatype Answer = Records(records: seq<Record>) | NotFound | Failed(code: int)

  /** `hosts` is empty when there is an error. */
  datatype Outcome = Outcome(hosts: seq<Host>, err: Option<MxError>)

  datatype Entry = Entry(outcome: Outcome, at: int, ttl: int)

  /** History: one lookup's answer, stored. */
  datatype Stored = Stored(domain: string, answer: Answer, at: int)

  function Pref(h: Host): int { h.pref }

  function Normal(domain: string): string {
    Text.Lower(Text.TrimSuffix(Text.Trim(domain), '.'))
  }

  /** A domain is looked up under the name it is asked by, without blanks around it and without a final dot, in small
      letters: one spelling for all. */
  lemma NormalIs(before: string, name: string, after: string, core: string)
    requires Text.AllBlank(before) && Text.AllBlank(after) && Text.Unpadded(name) && Text.Undotted(name, core)
    ensures var n := Normal(before + name + after);
      Text.Spells(n, core) && forall i :: 0 <= i < |n| ==> n[i] !in Text.CAPITALS
  {
    Text.TrimPadded(before, name, after);
    Text.UndottedIsTrim(name, core);
    Text.LowerIsSmall(core);
  }

  function HostNames(records: seq<Record>): seq<Host> {
    if records == [] then []
    else [Host(Text.TrimSuffix(records[0].target, '.'), records[0].pref)] + HostNames(records[1..])
  }

  predicate HasNullMx(records: seq<Record>) {
    exists i :: 0 <= i < |records| && Text.TrimSuffix(records[i].target, '.') == ""
  }

  /** The hosts a lookup's answer stands for, in the order of the answer. */
  function Resolved(domain: string, records: seq<Record>): seq<Host> {
    if records == [] then [Host(domain, 0)] else HostNames(records)
  }

  /** What an uncached resolution of `domain` yields, in the order the stable sort gives. */
  function Meaning(domain: string, answer: Answer): Outcome {
    match answer
    case Failed(code) => Outcome([], Some(LookupFailed(code)))
    case NotFound => Outcome([Host(domain, 0)], None)
    case Records(records) =>
      if HasNullMx(records) then Outcome([], Some(NullMx))
      else Outcome(Bands.StableSort(Resolved(domain, records), Pref), None)
  }

  /** What an answer is worth, host by host: a failed lookup is that error, and so is a null MX among the records;
      without records it is the domain itself; else the names of the records, without a final dot, with their
      preferences, the best first. */
  ghost predicate Answers(domain: string, answer: Answer, r: Outcome) {
    match answer
    case Failed(code) => r == Outcome([], Some(LookupFailed(code)))
    case NotFound => r == Outcome([Host(domain, 0)], None)
    case Records(records) =>
      if records == [] then r == Outcome([Host(domain, 0)], None)
      else if exists i :: 0 <= i < |records| && (records[i].target == "." || records[i].target == "") then
        r == Outcome([], Some(NullMx))
      else
        r.err.None? && (forall i, j :: 0 <= i < j < |r.hosts| ==> r.hosts[i].pref <= r.hosts[j].pref) &&
        exists hosts: seq<Host> :: Names(records, hosts) && multiset(r.hosts) == multiset(hosts)
  }

  /** Host by host the names of the records. */
  ghost predicate Names(records: seq<Record>, hosts: seq<Host>) {
    |hosts| == |records| &&
    forall i :: 0 <= i < |records| ==>
      Text.Undotted(records[i].target, hosts[i].name) && hosts[i].pref == records[i].pref
  }

  lemma {:induction false} HostNamesAre(records: seq<Record>)
    ensures Names(records, HostNames(records))
  {
    if records != [] {
      Text.TrimIsUndotted(records[0].target);
      HostNamesAre(records[1..]);
      forall i | 0 <= i < |records|
        ensures Text.Undotted(records[i].target, HostNames(records)[i].name)
        ensures HostNames(records)[i].pref == records[i].pref
      {
        if i > 0 { assert records[i] == records[1..][i - 1]; }
      }
    }
  }

  lemma NullIsDot(target: string)
    ensures Text.TrimSuffix(target, '.') == "" <==> target == "." || target == ""
  {
  }

  lemma NullRecords(records: seq<Record>)
    ensures HasNullMx(records) <==>
              exists i :: 0 <= i < |records| && (records[i].target == "." || records[i].target == "")
  {
    forall i | 0 <= i < |records|
      ensures Text.TrimSuffix(records[i].target, '.') == "" <==> records[i].target == "." || records[i].target == ""
    {
      NullIsDot(records[i].target);
    }
  }

  lemma OneHost(h: Host, hosts: seq<Host>)
    requires Bands.SameUpToBands([h], hosts, Pref)
    ensures hosts == [h]
  {
    assert h in multiset([h]);
    assert h in multiset(hosts) && |multiset(hosts)| == 1;
  }

  lemma NamedHosts(records: seq<Record>, hosts: seq<Host>)
    requires Bands.SameUpToBands(Bands.StableSort(HostNames(records), Pref), hosts, Pref)
    ensures multiset(hosts) == multiset(HostNames(records)) && Names(records, HostNames(records))
    ensures forall i, j :: 0 <= i < j < |hosts| ==> hosts[i].pref <= hosts[j].pref
  {
    HostNamesAre(records);
    Bands.StableSortSorts(HostNames(records), Pref);
    var sorted := Bands.StableSort(HostNames(records), Pref);
    forall i, j | 0 <= i < j < |hosts| ensures hosts[i].pref <= hosts[j].pref {
      assert Pref(sorted[i]) <= Pref(sorted[j]);
      assert Pref(sorted[i]) == Pref(hosts[i]) && Pref(sorted[j]) == Pref(hosts[j]);
    }
  }

  /** Whatever agrees with the meaning of an answer is what the answer is worth. */
  lemma MeaningAnswers(domain: string, answer: Answer, r: Outcome)
    requires SameOutcome(Meaning(domain, answer), r)
    ensures Answers(domain, answer, r)
  {
    match answer
    case Failed(_) =>
    case NotFound => OneHost(Host(domain, 0), r.hosts);
    case Records(records) =>
      if records == [] {
        NoRecords(domain, records, r);
      } else {
        NullRecords(records);
        if !HasNullMx(records) { NamedHosts(records, r.hosts); }
      }
  }

  lemma NoRecords(domain: string, records: seq<Record>, r: Outcome)
    requires records == [] && SameOutcome(Meaning(domain, Records(records)), r)
    ensures r == Outcome([Host(domain, 0)], None)
  {
    assert !HasNullMx(records);
    assert Bands.StableSort([Host(domain, 0)], Pref) == [Host(domain, 0)];
    OneHost(Host(domain, 0), r.hosts);
  }

  /** Failures are short-lived; answers, a null MX among them, are not. */
  function TtlFor(answer: Answer, ttl: int): int {
    if answer.Failed? then NEGATIVE_TTL else ttl
  }

  /** The same outcome, but for the order inside a preference. */
  ghost predicate SameOutcome(a: Outcome, b: Outcome) {
    a.err == b.err && Bands.SameUpToBands(a.hosts, b.hosts, Pref)
  }

  predicate IsLive(c: Entry, now: int) { now - c.at <= c.ttl }

  /** The last answer stored for a domain. */
  function Last(history: seq<Stored>, domain: string): Option<Stored> {
    if history == [] then None
    else if history[|history| - 1].domain == domain then Some(history[|history| - 1])
    else Last(history[..|history| - 1], domain)
  }

  /** A success is never empty, and it is what the lookup named, best preference first. */
  lemma SuccessIsSorted(domain: string, answer: Answer)
    ensures var r := Meaning(domain, answer);
      r.err.None? ==>
        && r.hosts != [] && Bands.SortedBy(r.hosts, Pref)
        && multiset(r.hosts) ==
             multiset(if answer.Records? then Resolved(domain, answer.records) else [Host(domain, 0)])
  {
    if answer.Records? {
      Bands.StableSortSorts(Resolved(domain, answer.records), Pref);
    }
  }

  lemma HostNamesSnoc(records: seq<Record>, n: nat)
    requires n < |records|
    ensures HostNames(records[..n + 1]) ==
            HostNames(records[..n]) + [Host(Text.TrimSuffix(records[n].target, '.'), records[n].pref)]
  {
    if n == 0 {
      assert records[..1][1..] == [];
    } else {
      HostNamesSnoc(records[1..], n - 1);
      assert records[..n + 1][1..] == records[1..][..n];
      assert records[..n][1..] == records[1..][..n - 1];
    }
  }

  /** A cached entry is, up to in-band order, what the last lookup of its domain meant, stamped with the
      time it was stored and the lifetime its kind has. */
  ghost predicate EntryOk(history: seq<Stored>, d: string, c: Entry, ttl: int) {
    match Last(history, d)
    case None => false
    case Some(last) =>
      SameOutcome(Meaning(d, last.answer), c.outcome) && c.at == last.at && c.ttl == TtlFor(last.answer, ttl)
  }

  ghost predicate AllOk(history: seq<Stored>, cache: map<string, Entry>, ttl: int) {
    forall d :: d in cache ==> EntryOk(history, d, cache[d], ttl)
  }

  lemma PutOk(history: seq<Stored>, cache: map<string, Entry>, ttl: int, s: Stored, c: Entry)
    requires AllOk(history, cache, ttl) && SameOutcome(Meaning(s.domain, s.answer), c.outcome)
    requires c.at == s.at && c.ttl == TtlFor(s.answer, ttl)
    ensures AllOk(history + [s], cache[s.domain := c], ttl)
  {
    var h := history + [s];
    assert h[..|h| - 1] == history;
    var put := cache[s.domain := c];
    forall d | d in put ensures EntryOk(h, d, put[d], ttl) {
      if d != s.domain { assert EntryOk(history, d, cache[d], ttl) && Last(h, d) == Last(history, d); }
    }
  }

  /** The cache less what has expired, whatever happens to `keep`. */
  function Survivors(cache: map<string, Entry>, keep: string, now: int): map<string, Entry> {
    map d | d in cache && (d == keep || IsLive(cache[d], now)) :: cache[d]
  }

  function Bounded(cache: map<string, Entry>, keep: string, now: int): map<string, Entry>
    requires keep in cache
  {
    if |cache| <= MAX_ENTRIES then cache
    else if |Survivors(cache, keep, now)| <= MAX_ENTRIES then Survivors(cache, keep, now)
    else map[keep := cache[keep]]
  }

  /** Bounding keeps the entry just stored and invents nothing; nothing is lost below the bound, and a live
      entry is lost only with every other one. */
  lemma BoundedIsSafe(cache: map<string, Entry>, keep: string, now: int)
    requires keep in cache
    ensures var b := Bounded(cache, keep, now);
      && |b| <= 1024 && keep in b
      && (forall d :: d in b ==> d in cache && b[d] == cache[d])
      && (|cache| <= 1024 ==> b == cache)
      && (forall d :: d in cache && d !in b ==> !IsLive(cache[d], now) || b.Keys == {keep})
  {
    assert |map[keep := cache[keep]]| == 1;
  }

  class Resolver {
    /** TTL as configured. */
    const setting: int
    var cache: map<string, Entry>
    ghost var history: seq<Stored>

    constructor (setting: int)
      ensures Valid() && this.setting == setting && cache == map[] && history == []
    {
      this.setting, cache, history := setting, map[], [];
    }

    function Ttl(): (t: int) {
      if setting > 0 then setting else DEFAULT_TTL
    }

    ghost predicate Valid()
      reads this
    {
      |cache| <= MAX_ENTRIES && AllOk(history, cache, Ttl())
    }

    /** cached: a hit is a fresh copy of the entry, shuffled again; the entry itself keeps its order. */
    method Cached(domain: string, now: int, pick: (nat, nat) -> nat) returns (hit: Option<Outcome>)
      requires Valid() && forall k, i :: pick(k, i) <= i
      ensures hit.Some? <==> domain in cache && IsLive(cache[domain], now)
      ensures hit.Some? ==>
                && SameOutcome(cache[domain].outcome, hit.value)
                && (hit.value.err.None? ==> Bands.SortedBy(hit.value.hosts, Pref))
    {
      if domain !in cache || now - cache[domain].at > cache[domain].ttl { return None; }
      var c := cache[domain];
      if c.outcome.err.Some? {
        assert EntryOk(history, domain, c, Ttl());
        return Some(Outcome([], c.outcome.err));
      }
      var a := new Host[|c.outcome.hosts|](i requires 0 <= i < |c.outcome.hosts| => c.outcome.hosts[i]);
      assert a[..] == c.outcome.hosts;
      assert EntryOk(history, domain, c, Ttl());
      Sorted(domain, c);
      Bands.SortHosts(a, Pref, pick);
      StableOfSorted(c.outcome.hosts);
      hit := Some(Outcome(a[..], None));
    }

    lemma Sorted(domain: string, c: Entry)
      requires EntryOk(history, domain, c, Ttl()) && c.outcome.err.None?
      ensures Bands.SortedBy(c.outcome.hosts, Pref)
    {
      SuccessIsSorted(domain, Last(history, domain).value.answer);
    }

    lemma StableOfSorted(hosts: seq<Host>)
      requires Bands.SortedBy(hosts, Pref)
      ensures Bands.StableSort(hosts, Pref) == hosts
    {
      Bands.StableSortSorts(hosts, Pref);
      Bands.SortedIsItsBands(Bands.StableSort(hosts, Pref), hosts, Pref);
    }

    /** store: the entry is put in and the cache is bounded. */
    method Store(domain: string, outcome: Outcome, ttl: int, ghost answer: Answer, now: int, later: int)
      requires Valid() && SameOutcome(Meaning(domain, answer), outcome) && ttl == TtlFor(answer, Ttl())
      modifies this
      ensures Valid() && history == old(history) + [Stored(domain, answer, now)]
      ensures cache == Bounded(old(cache)[domain := Entry(outcome, now, ttl)], domain, later)
    {
      PutOk(history, cache, Ttl(), Stored(domain, answer, now), Entry(outcome, now, ttl));
      history := history + [Stored(domain, answer, now)];
      cache := cache[domain := Entry(outcome, now, ttl)];
      BoundedIsSafe(cache, domain, later);
      Bound(domain, later);
    }

    /** The end of store: over the bound, expired entries go, and if that is not enough everything but the
        entry just stored. */
    method Bound(domain: string, now: int)
      requires domain in cache
      modifies this`cache
      ensures cache == Bounded(old(cache), domain, now)
    {
      if |cache| <= MAX_ENTRIES { return; }
      Sweep(domain, now);
      if |cache| > MAX_ENTRIES { cache := map[domain := cache[domain]]; }
    }

    /** The loop over the map: expired entries other than the one just stored are deleted. */
    method Sweep(domain: string, now: int)
      requires domain in cache
      modifies this`cache
      ensures cache == Survivors(old(cache), domain, now)
    {
      ghost var before := cache;
      var todo := cache.Keys;
      while todo != {}
        invariant todo <= before.Keys
        invariant forall d :: d in cache <==> d in before && (d in todo || d == domain || IsLive(before[d], now))
        invariant forall d :: d in cache ==> cache[d] == before[d]
        decreases |todo|
      {
        var d :| d in todo;
        todo := todo - {d};
        if d != domain && now - cache[d].at > cache[d].ttl { cache := cache - {d}; }
      }
    }

    /** The loop that turns records into hosts; it stops at a null MX. */
    method HostsOf(records: seq<Record>) returns (hosts: seq<Host>, isNull: bool)
      ensures isNull <==> HasNullMx(records)
      ensures !isNull ==> hosts == HostNames(records)
    {
      hosts := [];
      for n := 0 to |records|
        invariant hosts == HostNames(records[..n])
        invariant forall i :: 0 <= i < n ==> Text.TrimSuffix(records[i].target, '.') != ""
      {
        var name := Text.TrimSuffix(records[n].target, '.');
        if name == "" { return [], true; }
        HostNamesSnoc(records, n);
        hosts := hosts + [Host(name, records[n].pref)];
      }
      assert records[..|records|] == records;
      isNull := false;
    }

    /** Hosts.  Whatever it returns is, up to in-band order, what the last stored lookup of that domain meant,
        and that lookup was stored no longer ago than its kind may live; a success is not empty, and sorted. */
    method Hosts(asked: string, answer: Answer, now: int, stored: int, swept: int, pick: (nat, nat) -> nat)
      returns (r: Outcome)
      requires Valid() && forall k, i :: pick(k, i) <= i
      modifies this
      ensures Valid()
      ensures Normal(asked) == "" ==>
                r == Outcome([], Some(EmptyDomain)) && history == old(history) && cache == old(cache)
      ensures Normal(asked) != "" ==>
                var d := Normal(asked);
                && var last := Last(history, d);
                && last.Some? && SameOutcome(Meaning(d, last.value.answer), r)
                && (if history == old(history) then now - last.value.at <= TtlFor(last.value.answer, Ttl())
                    else history == old(history) + [Stored(d, answer, stored)])
                && (history != old(history) ==> d in cache && cache[d] == Entry(r, stored, TtlFor(answer, Ttl())))
                && (history != old(history) <==> !(d in old(cache) && IsLive(old(cache[d]), now)))
      ensures r.err.None? ==> r.hosts != [] && Bands.SortedBy(r.hosts, Pref)
      // a lookup that is made is answered for what it is worth, and kept for half a minute if it failed, otherwise
      // as long as is configured, or five minutes
      ensures Normal(asked) != "" ==> Answers(Normal(asked), Last(history, Normal(asked)).value.answer, r)
      ensures Normal(asked) != "" && history != old(history) ==>
                && Last(history, Normal(asked)).value == Stored(Normal(asked), answer, stored)
                && cache[Normal(asked)].ttl ==
                     if answer.Failed? then 30_000_000_000 else if setting > 0 then setting else 300_000_000_000
    {
      var d := Normal(asked);
      if d == "" { return Outcome([], Some(EmptyDomain)); }
      var hit := Cached(d, now, pick);
      if hit.Some? {
        assert EntryOk(history, d, cache[d], Ttl());
        HitAgrees(d, hit.value);
        return hit.value;
      }
      r := Fresh(d, answer, pick);
      Store(d, r, if answer.Failed? then NEGATIVE_TTL else Ttl(), answer, stored, swept);
      BoundedIsSafe(old(cache)[d := Entry(r, stored, TtlFor(answer, Ttl()))], d, swept);
      Agrees(d, answer, r);
    }

    lemma HitAgrees(d: string, r: Outcome)
      requires d in cache && EntryOk(history, d, cache[d], Ttl()) && SameOutcome(cache[d].outcome, r)
      ensures Last(history, d).Some? && SameOutcome(Meaning(d, Last(history, d).value.answer), r)
      ensures Answers(d, Last(history, d).value.answer, r)
      ensures r.err.None? ==> r.hosts != [] && Bands.SortedBy(r.hosts, Pref)
    {
      Agrees(d, Last(history, d).value.answer, r);
    }

    lemma Agrees(d: string, answer: Answer, r: Outcome)
      requires SameOutcome(Meaning(d, answer), r)
      ensures Answers(d, answer, r)
      ensures r.err.None? ==> r.hosts != [] && Bands.SortedBy(r.hosts, Pref)
    {
      SuccessIsSorted(d, answer);
      MeaningAnswers(d, answer, r);
    }

    /** A resolution that does not come from the cache. */
    method Fresh(d: string, answer: Answer, pick: (nat, nat) -> nat) returns (r: Outcome)
      requires forall k, i :: pick(k, i) <= i
      ensures SameOutcome(Meaning(d, answer), r) && Answers(d, answer, r)
    {
      r := LookUp(d, answer, pick);
      MeaningAnswers(d, answer, r);
    }

    /** The lookup, and the hosts it names. */
    method LookUp(d: string, answer: Answer, pick: (nat, nat) -> nat) returns (r: Outcome)
      requires forall k, i :: pick(k, i) <= i
      ensures SameOutcome(Meaning(d, answer), r)
    {
      var records := [];
      match answer {
        case Failed(code) => return Outcome([], Some(LookupFailed(code)));
        case NotFound =>
        case Records(given) => records := given;
      }
      var hosts, isNull := HostsOf(records);
      if isNull { return Outcome([], Some(NullMx)); }
      if |hosts| == 0 { hosts := [Host(d, 0)]; }
      var a := new Host[|hosts|](i requires 0 <= i < |hosts| => hosts[i]);
      assert a[..] == hosts;
      assert hosts == Resolved(d, records);
      assert answer.NotFound? ==> Bands.StableSort(hosts, Pref) == hosts;
      Bands.SortHosts(a, Pref, pick);
      r := Outcome(a[..], None);
    }
  }
}
