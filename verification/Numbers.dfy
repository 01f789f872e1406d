/** Decimal numbers, as the source prints and parses them. */
module Numbers {
  import opened Options

  function DigitChar(d: nat): char
    requires d < 10
  {
    "0123456789"[d]
  }

  function DigitValue(c: char): Option<nat> {
    if '0' <= c <= '9' then Some((c as int) - ('0' as int)) else None
  }

  function Decimal(n: nat): string {
    if n < 10 then [DigitChar(n)] else Decimal(n / 10) + [DigitChar(n % 10)]
  }

  /** %d */
  function Signed(n: int): string {
    if n < 0 then "-" + Decimal(-n) else Decimal(n)
  }

  function Digits(s: string): Option<nat>
    requires s != ""
  {
    var last := DigitValue(s[|s| - 1]);
    if last.None? then None
    else if |s| == 1 then last
    else
      var front := Digits(s[..|s| - 1]);
      if front.None? then None else Some(front.value * 10 + last.value)
  }

  const MIN_INT64: int := -0x8000_0000_0000_0000
  const MAX_INT64: int := 0x7fff_ffff_ffff_ffff

  /** strconv.ParseInt(s, 10, 64) */
  function ParseInt(s: string): Option<int> {
    if s == "" then None
    else
      var negative := s[0] == '-';
      var body := if s[0] == '-' || s[0] == '+' then s[1..] else s;
      if body == "" then None
      else
        var v := Digits(body);
        if v.None? then None
        else
          var n: int := (if negative then -1 else 1) * v.value;
          if MIN_INT64 <= n <= MAX_INT64 then Some(n) else None
  }

  // ---------------------------------------------------------------- proofs

  lemma {:induction false} DecimalHasNoDash(n: nat)
    ensures Decimal(n) != "" && '-' !in Decimal(n) && Decimal(n)[0] != '+'
  {
    if n >= 10 { DecimalHasNoDash(n / 10); }
  }

  lemma {:induction false} DigitsOfDecimal(n: nat)
    ensures Decimal(n) != "" && Digits(Decimal(n)) == Some(n)
  {
    if n >= 10 {
      DigitsOfDecimal(n / 10);
      var s := Decimal(n);
      assert s[..|s| - 1] == Decimal(n / 10) && s[|s| - 1] == DigitChar(n % 10);
    }
  }

  lemma ParseIntOfDecimal(n: nat)
    requires n <= MAX_INT64
    ensures ParseInt(Decimal(n)) == Some(n)
  {
    DecimalHasNoDash(n);
    DigitsOfDecimal(n);
    assert Decimal(n)[0] in Decimal(n);
    ParseIntOfDigits(Decimal(n), n);
  }

  lemma ParseIntOfDigits(s: string, n: nat)
    requires s != "" && s[0] != '-' && s[0] != '+' && Digits(s) == Some(n) && n <= MAX_INT64
    ensures ParseInt(s) == Some(n)
  {
  }

  lemma {:induction false} DecimalInjective(m: nat, n: nat)
    requires Decimal(m) == Decimal(n)
    ensures m == n
  {
    DigitsOfDecimal(m);
    DigitsOfDecimal(n);
  }
}
