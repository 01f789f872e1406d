/** The xtext encoding of section 4 of RFC 3461 (mailgw-go/internal/dsn/dsn.go, xtext). */
module Xtext {
  import opened Options

  type Byte = c: char | (c as int) < 256 witness 'a'

  const HEX := "0123456789ABCDEF"

  predicate Plain(c: char) { '!' <= c <= '~' && c != '+' && c != '=' }

  function EncodeByte(c: Byte): string {
    if Plain(c) then [c] else ['+', HEX[c as int / 16], HEX[c as int % 16]]
  }

  function Encode(s: seq<Byte>): string {
    if s == [] then "" else EncodeByte(s[0]) + Encode(s[1..])
  }

  function HexValue(c: char): (v: Option<nat>)
    ensures v.Some? ==> v.value < 16
  {
    if '0' <= c <= '9' then Some(c as int - '0' as int)
    else if 'A' <= c <= 'F' then Some(c as int - 'A' as int + 10)
    else None
  }

  /** Reading xtext, by the standard's grammar. */
  function Decode(t: string): Option<seq<Byte>>
    decreases |t|
  {
    if t == "" then Some([])
    else if Plain(t[0]) then
      match Decode(t[1..])
      case None => None
      case Some(rest) => Some([t[0]] + rest)
    else if t[0] == '+' && |t| >= 3 && HexValue(t[1]).Some? && HexValue(t[2]).Some? then
      var c: Byte := (HexValue(t[1]).value * 16 + HexValue(t[2]).value) as char;
      match Decode(t[3..])
      case None => None
      case Some(rest) => Some([c] + rest)
    else None
  }

  lemma HexOf(d: nat)
    requires d < 16
    ensures HexValue(HEX[d]) == Some(d) && ('0' <= HEX[d] <= '9' || 'A' <= HEX[d] <= 'F')
  {
    if d < 10 { assert HEX[d] as int == '0' as int + d; } else { assert HEX[d] as int == 'A' as int + d - 10; }
  }

  lemma DecodeByte(c: Byte, t: string)
    ensures Decode(EncodeByte(c) + t) ==
              match Decode(t) { case None => None case Some(rest) => Some([c] + rest) }
    ensures forall i :: 0 <= i < |EncodeByte(c)| ==> '!' <= EncodeByte(c)[i] <= '~' && EncodeByte(c)[i] != '='
  {
    var u := EncodeByte(c) + t;
    if Plain(c) {
      assert u[0] == c && u[1..] == t;
    } else {
      HexOf(c as int / 16);
      HexOf(c as int % 16);
      assert u[0] == '+' && u[1] == HEX[c as int / 16] && u[2] == HEX[c as int % 16] && u[3..] == t;
    }
  }

  /** Whatever the bytes, the encoding is printable, without space or `=`, and decodes to them. */
  lemma {:induction false} RoundTrip(s: seq<Byte>)
    ensures Decode(Encode(s)) == Some(s)
    ensures forall i :: 0 <= i < |Encode(s)| ==> '!' <= Encode(s)[i] <= '~' && Encode(s)[i] != '='
  {
    if s != [] {
      RoundTrip(s[1..]);
      DecodeByte(s[0], Encode(s[1..]));
      assert s == [s[0]] + s[1..];
    }
  }

  lemma {:induction false} EncodeSnoc(s: seq<Byte>, c: Byte)
    ensures Encode(s + [c]) == Encode(s) + EncodeByte(c)
  {
    if s == [] {
      assert (s + [c])[1..] == [];
    } else {
      EncodeSnoc(s[1..], c);
      assert (s + [c])[1..] == s[1..] + [c];
    }
  }

  /** Text stands for itself exactly when it is printable, without space, `+` and `=`. */
  lemma {:induction false} StandsForItself(s: seq<Byte>)
    ensures Encode(s) == s <==> forall i :: 0 <= i < |s| ==> 33 <= s[i] as int <= 126 && s[i] != '+' && s[i] != '='
    ensures |Encode(s)| >= |s|
  {
    if s != [] {
      var c, rest := s[0], s[1..];
      StandsForItself(rest);
      assert s == [c] + rest;
      assert Plain(c) ==> Encode(s)[1..] == Encode(rest);
    }
  }

  /** The loop over the bytes. */
  method EncodeText(s: seq<Byte>) returns (b: string)
    ensures b == Encode(s)
  {
    b := "";
    for i := 0 to |s|
      invariant b == Encode(s[..i])
    {
      EncodeSnoc(s[..i], s[i]);
      assert s[..i + 1] == s[..i] + [s[i]];
      var c := s[i];
      if c < '!' || c > '~' || c == '+' || c == '=' {
        b := b + ['+', HEX[c as int / 16], HEX[c as int % 16]];
      } else {
        b := b + [c];
      }
    }
    assert s[..|s|] == s;
  }
}
