/**
  The file name a replayer gives a claimed event, and its parser
  (mailgw-go/internal/events/replay.go, one and parseClaim).
 */
module ClaimName {
  import opened Numbers
  import opened Options

  /** strings.Cut at the first dash. */
  function CutDash(s: string): Option<(string, string)> {
    if s == "" then None
    else if s[0] == '-' then Some(("", s[1..]))
    else
      var rest := CutDash(s[1..]);
      if rest.None? then None else Some(([s[0]] + rest.value.0, rest.value.1))
  }

  const CLAIM_PREFIX: string := ".claim-"

  /** How long a claim is left alone: fifteen minutes, in nanoseconds. */
  const CLAIM_GRACE: nat := 900_000_000_000

  function Claim(pid: nat, at: int, name: string): string {
    CLAIM_PREFIX + (Decimal(pid) + "-" + (Signed(at) + "-" + name))
  }

  datatype Parsed = Parsed(name: string, at: int)

  /** The original name may hold dashes of its own, so exactly two fields come off the front. */
  function ParseClaim(file: string): Option<Parsed> {
    if !(CLAIM_PREFIX <= file) then None
    else
      var first := CutDash(file[|CLAIM_PREFIX|..]);
      if first.None? then None
      else
        var second := CutDash(first.value.1);
        if second.None? then None
        else
          var at := ParseInt(second.value.0);
          if at.None? || second.value.1 == "" then None else Some(Parsed(second.value.1, at.value))
  }

  /** What Pending lists: not hidden, and a .json file. */
  predicate IsPending(file: string) {
    |file| >= 5 && file[|file| - 5..] == ".json" && file[0] != '.'
  }

  // ---------------------------------------------------------------- proofs

  lemma {:induction false} CutDashAt(a: string, b: string)
    requires '-' !in a
    ensures CutDash(a + "-" + b) == Some((a, b))
  {
    if a == "" {
      assert a + "-" + b == "-" + b;
    } else {
      CutDashAt(a[1..], b);
      assert (a + "-" + b)[1..] == a[1..] + "-" + b;
      assert [a[0]] + a[1..] == a;
    }
  }

  lemma AfterPrefix(prefix: string, s: string)
    ensures prefix <= prefix + s && (prefix + s)[|prefix|..] == s
  {
  }

  lemma PidIsCut(pid: nat, at: int, name: string)
    ensures CLAIM_PREFIX <= Claim(pid, at, name)
    ensures CutDash(Claim(pid, at, name)[|CLAIM_PREFIX|..]) == Some((Decimal(pid), Signed(at) + "-" + name))
  {
    var tail := Signed(at) + "-" + name;
    AfterPrefix(CLAIM_PREFIX, Decimal(pid) + "-" + tail);
    assert Decimal(pid) + ("-" + tail) == Decimal(pid) + "-" + tail;
    DecimalHasNoDash(pid);
    CutDashAt(Decimal(pid), tail);
  }

  /** What is parsed, given the two cuts. */
  lemma ParsedFrom(file: string, pid: string, rest: string, at: string, name: string)
    requires CLAIM_PREFIX <= file && CutDash(file[|CLAIM_PREFIX|..]) == Some((pid, rest))
    requires CutDash(rest) == Some((at, name)) && name != ""
    ensures ParseClaim(file) ==
              match ParseInt(at) { case None => None case Some(n) => Some(Parsed(name, n)) }
  {
  }

  /** The parser inverts the format for every pid and every name, dashes and all, exactly when the
      clock reads a time not before 1970: the sign of an earlier one is a dash too many. */
  lemma ClaimParses(pid: nat, at: int, name: string)
    requires MIN_INT64 <= at <= MAX_INT64 && name != ""
    ensures ParseClaim(Claim(pid, at, name)) == Some(Parsed(name, at)) <==> at >= 0
    ensures at < 0 ==> ParseClaim(Claim(pid, at, name)).None?
  {
    PidIsCut(pid, at, name);
    if at >= 0 {
      DecimalHasNoDash(at);
      CutDashAt(Decimal(at), name);
      ParseIntOfDecimal(at);
      ParsedFrom(Claim(pid, at, name), Decimal(pid), Signed(at) + "-" + name, Decimal(at), name);
    } else {
      SignIsCut(-at, name);
      ParsedFrom(Claim(pid, at, name), Decimal(pid), Signed(at) + "-" + name, "", Decimal(-at) + "-" + name);
    }
  }

  lemma SignIsCut(n: int, name: string)
    requires n > 0
    ensures CutDash(Signed(-n) + "-" + name) == Some(("", Decimal(n) + "-" + name))
  {
    assert Signed(-n) + "-" + name == "-" + (Decimal(n) + "-" + name);
  }

  lemma ClaimIsHidden(pid: nat, at: int, name: string)
    ensures !IsPending(Claim(pid, at, name)) && CLAIM_PREFIX <= Claim(pid, at, name)
  {
  }

  /** Two claims are the same file only if they are the same claim. */
  lemma ClaimInjective(pid: nat, at: int, name: string, pid': nat, at': int, name': string)
    requires 0 <= at <= MAX_INT64 && 0 <= at' <= MAX_INT64 && name != "" && name' != ""
    requires Claim(pid, at, name) == Claim(pid', at', name')
    ensures pid == pid' && at == at' && name == name'
  {
    ClaimParses(pid, at, name);
    ClaimParses(pid', at', name');
    var tail, tail' := Signed(at) + "-" + name, Signed(at') + "-" + name';
    assert Claim(pid, at, name)[|CLAIM_PREFIX|..] == Decimal(pid) + "-" + tail;
    assert Claim(pid', at', name')[|CLAIM_PREFIX|..] == Decimal(pid') + "-" + tail';
    DecimalHasNoDash(pid);
    DecimalHasNoDash(pid');
    CutDashAt(Decimal(pid), tail);
    CutDashAt(Decimal(pid'), tail');
    DecimalInjective(pid, pid');
  }
}
