/** The console's hexadecimal parser. */
module HexParser {
  import opened Common

  /** Value of one character, if it is a hexadecimal digit. */
  function Digit(c: char): Option<nat> {
    if '0' <= c <= '9' then Some((c - '0') as nat)
    else if 'A' <= c <= 'F' then Some((c - 'A') as nat + 10)
    else if 'a' <= c <= 'f' then Some((c - 'a') as nat + 10)
    else None
  }

  predicate IsHex(s: string) {
    forall i :: 0 <= i < |s| ==> Digit(s[i]).Some?
  }

  function Pow16(n: nat): (p: nat)
    ensures p > 0
  {
    if n == 0 then 1 else 16 * Pow16(n - 1)
  }

  /** What one character contributes: a digit by its distance from the end, anything else
      nothing, although it does take up a position. */
  function Term(s: string, i: nat): nat
    requires i < |s|
  {
    match Digit(s[i])
    case Some(d) => d * Pow16(|s| - i - 1)
    case None => 0
  }

  /** The sum the loop has formed after `n` characters. */
  function PartialSum(s: string, n: nat): nat
    requires n <= |s|
  {
    if n == 0 then 0 else PartialSum(s, n - 1) + Term(s, n - 1)
  }

  /** Positional value, digit by digit from the left. */
  function Horner(s: string): nat {
    if s == [] then 0
    else 16 * Horner(s[..|s| - 1]) + (match Digit(s[|s| - 1]) case Some(d) => d case None => 0)
  }

  lemma Regroup(d: nat, p: nat)
    ensures d * (16 * p) == 16 * (d * p)
  {
  }

  lemma {:induction false} PartialSumShift(s: string, c: char, n: nat)
    requires n <= |s|
    ensures PartialSum(s + [c], n) == 16 * PartialSum(s, n)
  {
    if n > 0 {
      PartialSumShift(s, c, n - 1);
      var k := |s| - n;
      assert Pow16(k + 1) == 16 * Pow16(k);
      match Digit(s[n - 1])
      case Some(d) => Regroup(d, Pow16(k));
      case None =>
    }
  }

  /** For every string of characters the sum of digits times powers is Horner's value. */
  lemma {:induction false} SumIsHorner(s: string)
    ensures PartialSum(s, |s|) == Horner(s)
  {
    if s != [] {
      var t, c := s[..|s| - 1], s[|s| - 1];
      assert s == t + [c];
      PartialSumShift(t, c, |t|);
      SumIsHorner(t);
    }
  }

  /** No partial sum exceeds the value: the accumulator, a 32-bit long in the firmware, does not
      overflow on the way to a value that it can hold. */
  lemma {:induction false} PartialSumsBounded(s: string, n: nat)
    requires n <= |s|
    ensures PartialSum(s, n) <= Horner(s)
    decreases |s| - n
  {
    if n == |s| {
      SumIsHorner(s);
    } else {
      PartialSumsBounded(s, n + 1);
    }
  }

  predicate Contains0x(s: string) {
    exists i :: 0 <= i && i + 1 < |s| && s[i] == '0' && s[i + 1] == 'x'
  }

  /** The part of the string the loop looks at. */
  function Kept(hex: string): string { hex[..|hex| % 0x100] }

  /** What the parser returns. The length is kept in one byte; `decimal` is what `atol` makes
      of a string without "0x" in it. */
  function Parsed(hex: string, decimal: int): int {
    if Contains0x(hex) then Horner(Kept(hex)) else decimal
  }

  method Htol(hex: string, decimal: int) returns (longInt: int)
    ensures longInt == Parsed(hex, decimal)
  {
    longInt := 0;
    if Contains0x(hex) {
      var len: byte := |hex| % 0x100;
      ghost var s := hex[..len];
      for cnt := 0 to len
        invariant longInt == PartialSum(s, cnt)
      {
        var val := hex[cnt];
        if 47 as char < val < 58 as char || 64 as char < val < 71 as char || 96 as char < val < 103 as char {
          var bas := if val > 64 as char then (if val > 96 as char then 87 else 55) else 48;
          var weight := Power(len - cnt - 1);
          longInt := longInt + (val as int - bas) * weight;
        }
      }
      SumIsHorner(s);
    } else {
      longInt := decimal;
    }
  }

  /** Stands in for the C library's `pow(16, n)`. */
  method Power(n: nat) returns (p: nat)
    ensures p == Pow16(n)
  {
    p := 1;
    for i := 0 to n
      invariant p == Pow16(i)
    {
      p := 16 * p;
    }
  }

  // ----- Round trip ---------------------------------------------------------

  function DigitChar(d: nat, upper: bool): (c: char)
    requires d < 16
    ensures Digit(c) == Some(d)
  {
    if d < 10 then '0' + d as char else if upper then 'A' + (d - 10) as char else 'a' + (d - 10) as char
  }

  function Later(upper: nat -> bool): nat -> bool { (i: nat) => upper(i + 1) }

  /** Hexadecimal digits of `n`; `upper(i)` chooses the case of the digit at distance `i`. */
  function Hex(n: nat, upper: nat -> bool): string {
    (if n < 16 then "" else Hex(n / 16, Later(upper))) + [DigitChar(n % 16, upper(0))]
  }

  lemma {:induction false} HornerOfHex(n: nat, upper: nat -> bool)
    ensures IsHex(Hex(n, upper)) && Horner(Hex(n, upper)) == n
  {
    var head, c := if n < 16 then "" else Hex(n / 16, Later(upper)), DigitChar(n % 16, upper(0));
    if n >= 16 {
      HornerOfHex(n / 16, Later(upper));
    }
    HornerAppend(head, c);
  }

  lemma HornerAppend(s: string, c: char)
    ensures Horner(s + [c]) == 16 * Horner(s) + (match Digit(c) case Some(d) => d case None => 0)
  {
    assert (s + [c])[..|s|] == s;
  }

  /** The two characters of the prefix take part in the loop but add nothing. */
  lemma {:induction false} PrefixIsNeutral(s: string)
    requires IsHex(s)
    ensures Horner("0x" + s) == Horner(s)
  {
    if s == "" {
      assert "0x"[..1] == "0" && "0"[..0] == "" && "0x" + s == "0x";
      assert Horner("0") == 0;
    } else {
      var t := "0x" + s;
      assert t[..|t| - 1] == "0x" + s[..|s| - 1];
      PrefixIsNeutral(s[..|s| - 1]);
    }
  }

  lemma {:induction false} HexLength(n: nat, upper: nat -> bool, k: nat)
    requires k > 0 && n < Pow16(k)
    ensures |Hex(n, upper)| <= k
  {
    if n >= 16 {
      assert Pow16(k) == 16 * Pow16(k - 1);
      assert n / 16 < Pow16(k - 1);
      HexLength(n / 16, Later(upper), k - 1);
    }
  }

  lemma Pow16Of8()
    ensures Pow16(8) == 0x1_0000_0000
  {
    assert Pow16(2) == 0x100;
    assert Pow16(4) == 0x1_0000;
    assert Pow16(6) == 0x100_0000;
  }

  lemma KeptWhole(s: string)
    requires |s| < 0x100
    ensures Kept(s) == s
  {
  }

  /** A short string with the prefix is parsed as a whole. */
  lemma ParsedWhole(s: string, decimal: int)
    requires 2 <= |s| < 0x100 && s[0] == '0' && s[1] == 'x'
    ensures Parsed(s, decimal) == Horner(s)
  {
    assert s[0 + 1] == 'x';
    KeptWhole(s);
  }

  /** Every number a non-negative 32-bit long can hold reads back from its hexadecimal
      digits, in either case or mixed. */
  lemma HexRoundTrip(n: nat, upper: nat -> bool, decimal: int)
    requires n < 0x8000_0000
    ensures Parsed("0x" + Hex(n, upper), decimal) == n
  {
    var digits := Hex(n, upper);
    Pow16Of8();
    HexLength(n, upper, 8);
    HornerOfHex(n, upper);
    PrefixIsNeutral(digits);
    ParsedWhole("0x" + digits, decimal);
  }

  /** With the prefix anywhere in it a string is read as hexadecimal; without, as decimal. */
  lemma PrefixMeansHexadecimal(hex: string, i: nat, decimal: int)
    requires i + 1 < |hex| && hex[i] == '0' && hex[i + 1] == 'x'
    ensures Parsed(hex, decimal) == Horner(Kept(hex))
  {
  }

  lemma OtherwiseDecimal(hex: string, decimal: int)
    ensures Parsed(hex, decimal) == decimal || exists i :: 0 <= i && i + 1 < |hex| && hex[i] == '0' && hex[i + 1] == 'x'
  {
  }
}
