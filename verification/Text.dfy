/** The few text operations the components share, on ASCII. */
module Text {
  function LowerChar(c: char): char {
    if 'A' <= c <= 'Z' then (c as int + 32) as char else c
  }

  function Lower(s: string): (r: string)
    ensures |r| == |s|
  {
    if s == "" then "" else [LowerChar(s[0])] + Lower(s[1..])
  }

  /** Equal up to letter case. */
  predicate SameFold(a: string, b: string) { Lower(a) == Lower(b) }

  predicate Space(c: char) {
    c == ' ' || c == '\t' || c == '\n' || c == '\r' || c == '\U{000B}' || c == '\U{000C}'
  }

  function TrimLeft(s: string): (r: string)
    ensures |r| <= |s| && (r != "" ==> !Space(r[0]))
  {
    if s != "" && Space(s[0]) then TrimLeft(s[1..]) else s
  }

  function TrimRight(s: string): (r: string)
    ensures r <= s && (r != "" ==> !Space(r[|r| - 1]))
  {
    if s != "" && Space(s[|s| - 1]) then TrimRight(s[..|s| - 1]) else s
  }

  function Trim(s: string): (r: string)
    ensures |r| <= |s| && (r != "" ==> !Space(r[0]) && !Space(r[|r| - 1]))
  {
    TrimRight(TrimLeft(s))
  }

  /** Where the first character of the set is, or the length. */
  function IndexAny(s: string, chars: set<char>): (n: nat)
    ensures n <= |s| && (n < |s| ==> s[n] in chars)
    ensures forall i :: 0 <= i < n ==> s[i] !in chars
  {
    if s == "" || s[0] in chars then 0 else 1 + IndexAny(s[1..], chars)
  }

  function TrimSuffix(s: string, c: char): string {
    if s != "" && s[|s| - 1] == c then s[..|s| - 1] else s
  }

  predicate AllSpace(s: string) { forall i :: 0 <= i < |s| ==> Space(s[i]) }

  lemma {:induction false} LowerIsPointwise(s: string)
    ensures forall i :: 0 <= i < |s| ==> Lower(s)[i] == LowerChar(s[i])
  {
    if s != "" { LowerIsPointwise(s[1..]); }
  }

  const BLANKS := " \t\n\r\U{000B}\U{000C}"

  predicate AllBlank(s: string) { forall i :: 0 <= i < |s| ==> s[i] in BLANKS }

  /** No blank at either end. */
  predicate Unpadded(s: string) { s == "" || (s[0] !in BLANKS && s[|s| - 1] !in BLANKS) }

  lemma SpaceIsBlank(c: char)
    ensures Space(c) <==> c in BLANKS
  {
    if Space(c) {
      assert BLANKS[0] == ' ' && BLANKS[1] == '\t' && BLANKS[2] == '\n' && BLANKS[3] == '\r';
      assert BLANKS[4] == '\U{000B}' && BLANKS[5] == '\U{000C}';
    }
  }

  lemma AllSpaceIsBlank(s: string)
    ensures AllSpace(s) <==> AllBlank(s)
  {
    forall i | 0 <= i < |s| ensures Space(s[i]) <==> s[i] in BLANKS { SpaceIsBlank(s[i]); }
  }

  /** Trimming takes exactly the blanks off both ends. */
  lemma TrimPadded(before: string, s: string, after: string)
    requires AllBlank(before) && AllBlank(after) && Unpadded(s)
    ensures Trim(before + s + after) == s
  {
    AllSpaceIsBlank(before);
    AllSpaceIsBlank(after);
    TrimLeftPadded(before, s + after);
    assert before + s + after == before + (s + after);
    if s == "" {
      TrimLeftPadded(after, "");
      assert s + after == after + "";
    } else {
      SpaceIsBlank(s[0]);
      SpaceIsBlank(s[|s| - 1]);
      assert TrimLeft(s + after) == s + after;
      TrimRightPadded(s, after);
    }
  }

  lemma {:induction false} TrimRightPadded(s: string, after: string)
    requires AllSpace(after)
    ensures TrimRight(s + after) == TrimRight(s)
  {
    if after == "" {
      assert s + after == s;
    } else {
      TrimRightPadded(s, after[..|after| - 1]);
      assert (s + after)[..|s + after| - 1] == s + after[..|after| - 1];
    }
  }

  /** `t` is `s` without the blanks at its two ends. */
  ghost predicate PaddedAt(s: string, t: string, i: nat, j: nat) {
    i <= j <= |s| && s[i..j] == t && AllBlank(s[..i]) && AllBlank(s[j..]) && Unpadded(t)
  }

  ghost predicate Padded(s: string, t: string) {
    exists i: nat, j: nat :: PaddedAt(s, t, i, j)
  }

  lemma {:induction false} TrimLeftIs(s: string) returns (i: nat)
    ensures i <= |s| && TrimLeft(s) == s[i..] && AllSpace(s[..i])
  {
    i := 0;
    if s != "" && Space(s[0]) {
      i := TrimLeftIs(s[1..]);
      i := i + 1;
      assert s[..i] == [s[0]] + s[1..][..i - 1];
    }
  }

  lemma {:induction false} TrimRightIs(s: string)
    ensures AllSpace(s[|TrimRight(s)|..])
  {
    if s != "" && Space(s[|s| - 1]) {
      var front := s[..|s| - 1];
      TrimRightIs(front);
      assert s[|TrimRight(s)|..] == front[|TrimRight(s)|..] + [s[|s| - 1]];
    }
  }

  lemma TrimIsPadded(s: string)
    ensures Padded(s, Trim(s))
  {
    var t := Trim(s);
    var i := TrimLeftIs(s);
    TrimRightIs(s[i..]);
    AllSpaceIsBlank(s[..i]);
    AllSpaceIsBlank(s[i + |t|..]);
    assert s[i..][|t|..] == s[i + |t|..] && s[i..][..|t|] == s[i..i + |t|];
    if t != "" {
      SpaceIsBlank(t[0]);
      SpaceIsBlank(t[|t| - 1]);
    }
    assert PaddedAt(s, t, i, i + |t|);
  }

  /** `core` is `t` but for one final dot, if `t` has one. */
  predicate Undotted(t: string, core: string) {
    t == core + "." || (t == core && (core == "" || core[|core| - 1] != '.'))
  }

  lemma UndottedIsTrim(t: string, core: string)
    requires Undotted(t, core)
    ensures TrimSuffix(t, '.') == core
  {
  }

  lemma TrimIsUndotted(t: string)
    ensures Undotted(t, TrimSuffix(t, '.'))
  {
    if t != "" && t[|t| - 1] == '.' { assert t == TrimSuffix(t, '.') + "."; }
  }

  // ---------------------------------------------------------------- spelling

  const CAPITALS := "ABCDEFGHIJKLMNOPQRSTUVWXYZ"
  const SMALL := "abcdefghijklmnopqrstuvwxyz"

  /** The two forms of one letter. */
  predicate Pair(a: char, b: char) { exists i :: 0 <= i < 26 && CAPITALS[i] == a && SMALL[i] == b }

  /** One text spelt with other capitals. */
  ghost predicate Spells(a: string, b: string) {
    |a| == |b| && forall i :: 0 <= i < |a| ==> a[i] == b[i] || Pair(a[i], b[i]) || Pair(b[i], a[i])
  }

  lemma LettersAt(i: nat)
    requires i < 26
    ensures CAPITALS[i] == (65 + i) as char && SMALL[i] == (97 + i) as char
  {
    if i < 13 { FirstLetters(i); } else { LastLetters(i); }
  }

  lemma FirstLetters(i: nat)
    requires i < 13
    ensures CAPITALS[i] == (65 + i) as char && SMALL[i] == (97 + i) as char
  {
  }

  lemma LastLetters(i: nat)
    requires 13 <= i < 26
    ensures CAPITALS[i] == (65 + i) as char && SMALL[i] == (97 + i) as char
  {
  }

  lemma CapitalIs(c: char)
    requires 'A' <= c <= 'Z'
    ensures Pair(c, LowerChar(c))
  {
    LettersAt(c as int - 'A' as int);
  }

  lemma PairFolds(a: char, b: char)
    requires Pair(a, b)
    ensures LowerChar(a) == b && LowerChar(b) == b
  {
    var i :| 0 <= i < 26 && CAPITALS[i] == a && SMALL[i] == b;
    LettersAt(i);
  }

  lemma CharsFold(a: char, b: char)
    ensures LowerChar(a) == LowerChar(b) <==> a == b || Pair(a, b) || Pair(b, a)
  {
    if 'A' <= a <= 'Z' { CapitalIs(a); }
    if 'A' <= b <= 'Z' { CapitalIs(b); }
    if Pair(a, b) { PairFolds(a, b); }
    if Pair(b, a) { PairFolds(b, a); }
  }

  /** Folding tells exactly the spellings of one text from those of another. */
  lemma FoldIffSpells(a: string, b: string)
    ensures SameFold(a, b) <==> Spells(a, b)
  {
    LowerIsPointwise(a);
    LowerIsPointwise(b);
    if |a| == |b| {
      forall i | 0 <= i < |a|
        ensures Lower(a)[i] == Lower(b)[i] <==> a[i] == b[i] || Pair(a[i], b[i]) || Pair(b[i], a[i])
      {
        CharsFold(a[i], b[i]);
      }
    }
  }

  /** A word without capitals is the small form of its spellings. */
  lemma SmallIsSpelt(s: string, word: string)
    requires forall i :: 0 <= i < |word| ==> word[i] < 'A' || word[i] > 'Z'
    ensures Lower(s) == word <==> Spells(s, word)
  {
    LowerIsPointwise(word);
    assert Lower(word) == word;
    FoldIffSpells(s, word);
  }

  /** In small letters a text is spelt in one way. */
  lemma LowerIsSmall(s: string)
    ensures Spells(Lower(s), s) && forall i :: 0 <= i < |s| ==> Lower(s)[i] !in CAPITALS
  {
    LowerIsSpelt(s);
    LowerHasNoCapital(s);
  }

  lemma LowerIsSpelt(s: string)
    ensures Spells(Lower(s), s)
  {
    LowerTwice(s);
    FoldIffSpells(Lower(s), s);
  }

  lemma LowerHasNoCapital(s: string)
    ensures forall i :: 0 <= i < |s| ==> Lower(s)[i] !in CAPITALS
  {
    LowerIsPointwise(s);
    forall i | 0 <= i < |s| ensures Lower(s)[i] !in CAPITALS { NoCapital(Lower(s)[i]); }
  }

  lemma NoCapital(c: char)
    requires c < 'A' || c > 'Z'
    ensures c !in CAPITALS
  {
    if j :| 0 <= j < |CAPITALS| && CAPITALS[j] == c { LettersAt(j); }
  }

  lemma LowerTwice(s: string)
    ensures Lower(Lower(s)) == Lower(s)
  {
    LowerIsPointwise(s);
    LowerIsPointwise(Lower(s));
  }

  lemma {:induction false} TrimLeftPadded(before: string, s: string)
    requires AllSpace(before)
    ensures TrimLeft(before + s) == TrimLeft(s)
  {
    if before == "" {
      assert before + s == s;
    } else {
      TrimLeftPadded(before[1..], s);
      assert (before + s)[1..] == before[1..] + s;
    }
  }

  /** Text with something in it but blanks is not trimmed away. */
  lemma TrimKeeps(s: string, i: nat)
    requires i < |s| && !Space(s[i])
    ensures Trim(s) != ""
  {
    TrimLeftKeeps(s, i);
    var j := |TrimLeft(s)| - (|s| - i);
    TrimRightKeeps(TrimLeft(s), j);
  }

  lemma {:induction false} TrimLeftKeeps(s: string, i: nat)
    requires i < |s| && !Space(s[i])
    ensures |s| - i <= |TrimLeft(s)| && TrimLeft(s)[|TrimLeft(s)| - (|s| - i)] == s[i]
  {
    if i > 0 && Space(s[0]) { TrimLeftKeeps(s[1..], i - 1); }
  }

  lemma {:induction false} TrimRightKeeps(s: string, i: nat)
    requires i < |s| && !Space(s[i])
    ensures i < |TrimRight(s)|
  {
    if Space(s[|s| - 1]) { TrimRightKeeps(s[..|s| - 1], i); }
  }
}
