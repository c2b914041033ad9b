/**
  Decimal rendering of integers, as Java's Integer.toString / Long.toString
  produce it when a path template is resolved or a message is formatted:
  an optional leading '-', then the digits with no leading zero.
  Parse is the independent inverse used to show the rendering loses nothing.
 */
module Decimal {
  import opened Lang

  predicate IsDigit(c: char) {
    '0' <= c <= '9'
  }

  function DigitValue(c: char): (d: nat)
    requires IsDigit(c)
    ensures d < 10
  {
    (c as int) - ('0' as int)
  }

  function DigitChar(d: nat): (c: char)
    requires d < 10
    ensures IsDigit(c) && DigitValue(c) == d
  {
    (('0' as int) + d) as char
  }

  predicate AllDigits(s: string) {
    forall i :: 0 <= i < |s| ==> IsDigit(s[i])
  }

  /** Non-empty digits without a leading zero, except "0" itself. */
  predicate Canonical(s: string) {
    |s| >= 1 && AllDigits(s) && (s[0] == '0' ==> |s| == 1)
  }

  /** The decimal digits of a natural number, most significant first. */
  function NatDigits(n: nat): (s: string)
    ensures Canonical(s)
    ensures s[0] == '0' <==> n == 0
    decreases n
  {
    if n < 10 then [DigitChar(n)] else NatDigits(n / 10) + [DigitChar(n % 10)]
  }

  /** Integer.toString / Long.toString */
  function Show(n: int): (s: string)
    ensures |s| >= 1
    ensures s[0] == '-' <==> n < 0
    ensures forall i :: 0 <= i < |s| ==> IsDigit(s[i]) || (i == 0 && s[i] == '-')
  {
    if n < 0 then "-" + NatDigits(-n) else NatDigits(n)
  }

  /** The value of a string of digits read most significant first. */
  function DigitsValue(s: string): nat
    requires AllDigits(s)
  {
    if |s| == 0 then 0 else DigitsValue(s[..|s| - 1]) * 10 + DigitValue(s[|s| - 1])
  }

  /** Reads back exactly the strings Show produces and rejects every other string. */
  function Parse(s: string): Option<int> {
    if |s| >= 2 && s[0] == '-' && Canonical(s[1..]) && s[1] != '0' then Some(0 - DigitsValue(s[1..]))
    else if Canonical(s) then Some(DigitsValue(s))
    else None
  }

  lemma {:induction false} DigitsOfNat(n: nat)
    ensures DigitsValue(NatDigits(n)) == n
    decreases n
  {
    var s := NatDigits(n);
    if n < 10 {
      assert s[..|s| - 1] == [];
    } else {
      assert s[..|s| - 1] == NatDigits(n / 10);
      DigitsOfNat(n / 10);
    }
  }

  lemma {:induction false} NatOfDigits(s: string)
    requires Canonical(s)
    ensures NatDigits(DigitsValue(s)) == s
    decreases |s|
  {
    var v := DigitsValue(s);
    if |s| == 1 {
      assert s[..0] == [];
      assert DigitsValue(s[..0]) == 0;
      assert v == DigitValue(s[0]);
      assert DigitChar(DigitValue(s[0])) == s[0];
    } else {
      var p := s[..|s| - 1];
      assert p[0] == s[0];
      NatOfDigits(p);
      var d := DigitValue(s[|s| - 1]);
      assert DigitsValue(p) != 0;
      assert v == DigitsValue(p) * 10 + d;
      assert v / 10 == DigitsValue(p) && v % 10 == d;
      assert DigitChar(d) == s[|s| - 1];
      assert s == p + [s[|s| - 1]];
    }
  }

  /** Rendering then parsing gives the number back. */
  lemma ParseShow(n: int)
    ensures Parse(Show(n)) == Some(n)
  {
    var s := Show(n);
    if n < 0 {
      assert s[1..] == NatDigits(-n);
      DigitsOfNat(-n);
    } else {
      DigitsOfNat(n);
    }
  }

  /** Every string Parse accepts is the rendering of the number it yields. */
  lemma ShowParse(s: string, n: int)
    requires Parse(s) == Some(n)
    ensures Show(n) == s
  {
    if |s| >= 2 && s[0] == '-' && Canonical(s[1..]) && s[1] != '0' {
      NatOfDigits(s[1..]);
      assert s == "-" + s[1..];
    } else {
      NatOfDigits(s);
    }
  }

  /** Distinct numbers render to distinct strings. */
  lemma ShowInjective(a: int, b: int)
    requires Show(a) == Show(b)
    ensures a == b
  {
    ParseShow(a);
    ParseShow(b);
  }

  lemma CancelPrefix(pre: string, x: string, y: string)
    requires pre + x == pre + y
    ensures x == y
  {
    assert x == (pre + x)[|pre|..];
    assert y == (pre + y)[|pre|..];
  }

  lemma CancelFrame(pre: string, x: string, y: string, suf: string)
    requires pre + x + suf == pre + y + suf
    ensures x == y
  {
    var s := pre + x + suf;
    assert |x| == |y|;
    assert s[|pre|..|pre| + |x|] == x;
    assert (pre + y + suf)[|pre|..|pre| + |y|] == y;
  }

  /** Two renderings framed by the same text are equal only if the numbers are. */
  lemma FramedShowInjective(pre: string, a: int, b: int, suf: string)
    requires pre + Show(a) + suf == pre + Show(b) + suf
    ensures a == b
  {
    CancelFrame(pre, Show(a), Show(b), suf);
    ShowInjective(a, b);
  }

  /** The separator after a head that does not contain it is its first occurrence. */
  lemma SeparatorPosition(x: string, y: string, sep: char)
    requires sep !in x
    ensures (x + [sep] + y)[|x|] == sep
    ensures forall i :: 0 <= i < |x| ==> (x + [sep] + y)[i] != sep
  {
  }

  /** Splitting at the first separator is unambiguous when the heads do not contain it. */
  lemma SplitAtSeparator(x: string, y: string, x': string, y': string, sep: char)
    requires sep !in x && sep !in x'
    requires x + [sep] + y == x' + [sep] + y'
    ensures x == x' && y == y'
  {
    var s := x + [sep] + y;
    var s' := x' + [sep] + y';
    SeparatorPosition(x, y, sep);
    SeparatorPosition(x', y', sep);
    assert |x| == |x'|;
    assert x == s[..|x|];
    assert x' == s'[..|x'|];
    assert y == s[|x| + 1..];
    assert y' == s'[|x'| + 1..];
  }

  lemma SlashNotShown(n: int)
    ensures '/' !in Show(n)
  {
  }

  lemma ShowExamples()
    ensures Show(40) == "40" && Show(2) == "2" && Show(0) == "0"
    ensures Show(-7) == "-7"
    ensures Show(422) == "422" && Show(500) == "500"
  {
  }

  /** The widest Java int renders in full. */
  lemma ShowInt32Max()
    ensures Show(Int32Max as int) == "2147483647"
  {
    assert NatDigits(2) == "2";
    assert NatDigits(21) == "21";
    assert NatDigits(214) == "214";
    assert NatDigits(2147) == "2147";
    assert NatDigits(21474) == "21474";
    assert NatDigits(214748) == "214748";
    assert NatDigits(2147483) == "2147483";
    assert NatDigits(21474836) == "21474836";
    assert NatDigits(214748364) == "214748364";
    assert NatDigits(2147483647) == "2147483647";
  }
}
