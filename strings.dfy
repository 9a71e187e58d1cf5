/**
 * The string operations the scripts rely on: `ToLower`, `Contains`, and the
 * C# custom numeric format "00" used for the timer text.
 */
module Strings {

  /** `char.ToLower` on ASCII letters; every other character is kept. */
  function LowerChar(c: char): (r: char)
    ensures 'A' <= c <= 'Z' ==> r == c - 'A' + 'a'
    ensures !('A' <= c <= 'Z') ==> r == c
    ensures !('A' <= r <= 'Z')
  {
    if 'A' <= c <= 'Z' then c - 'A' + 'a' else c
  }

  /** `string.ToLower()`, character by character. */
  function ToLower(s: string): (r: string)
    ensures |r| == |s|
    ensures forall i :: 0 <= i < |s| ==> r[i] == LowerChar(s[i])
  {
    if s == [] then [] else [LowerChar(s[0])] + ToLower(s[1..])
  }

  /** Lower-casing twice is lower-casing once. */
  lemma {:induction false} ToLowerIdempotent(s: string)
    ensures ToLower(ToLower(s)) == ToLower(s)
  {
    if s != [] {
      ToLowerIdempotent(s[1..]);
    }
  }

  /** `string.Contains(sub)`: `sub` occurs at some position of `s`. */
  predicate Contains(s: string, sub: string)
  {
    exists i | 0 <= i <= |s| :: OccursAt(s, sub, i)
  }

  /** `sub` occurs in `s` starting at index `i`. */
  predicate OccursAt(s: string, sub: string, i: int)
  {
    0 <= i <= |s| - |sub| && s[i..i + |sub|] == sub
  }

  /** The lower-cased name contains one of the words. */
  predicate MentionsAny(name: string, words: seq<string>)
  {
    exists k | 0 <= k < |words| :: Contains(ToLower(name), words[k])
  }

  /** Whatever contains "reiniciar" also contains "iniciar" (two characters in). */
  lemma ReiniciarContainsIniciar(s: string)
    requires Contains(s, "reiniciar")
    ensures Contains(s, "iniciar")
  {
    var i :| 0 <= i <= |s| && OccursAt(s, "reiniciar", i);
    assert |"reiniciar"| == 9 && |"iniciar"| == 7;
    assert 0 <= i <= |s| - 9 && s[i..i + 9] == "reiniciar";
    assert s[i + 2..i + 9] == s[i..i + 9][2..];
    assert OccursAt(s, "iniciar", i + 2);
  }

  function Digit(d: nat): (c: char)
    requires d < 10
    ensures '0' <= c <= '9'
  {
    '0' + d as char
  }

  predicate IsDigit(c: char) { '0' <= c <= '9' }

  /** The decimal digits of `n`, without leading zeros. */
  function NatToString(n: nat): (s: string)
    ensures |s| >= 1
    ensures forall i :: 0 <= i < |s| ==> IsDigit(s[i])
    ensures n < 10 ==> |s| == 1
    ensures 10 <= n < 100 ==> |s| == 2
  {
    if n < 10 then [Digit(n)] else NatToString(n / 10) + [Digit(n % 10)]
  }

  /** Reads a string of decimal digits back as a number. */
  function ParseNat(s: string): nat
    requires forall i :: 0 <= i < |s| ==> IsDigit(s[i])
  {
    if s == [] then 0
    else
      var c := s[|s| - 1];
      assert IsDigit(c);
      ParseNat(s[..|s| - 1]) * 10 + (c as int - '0' as int)
  }

  lemma {:induction false} ParseNatToString(n: nat)
    ensures ParseNat(NatToString(n)) == n
  {
    if n >= 10 {
      var s := NatToString(n);
      assert s[..|s| - 1] == NatToString(n / 10);
      ParseNatToString(n / 10);
    }
  }

  /** The custom format "00" of a non-negative integer: at least two digits. */
  function TwoDigits(n: nat): (s: string)
    ensures |s| >= 2
    ensures n < 100 ==> |s| == 2
    ensures forall i :: 0 <= i < |s| ==> IsDigit(s[i])
  {
    if n < 10 then ['0', Digit(n)] else NatToString(n)
  }

  /** The format "00" reads back as the number it formats. */
  lemma TwoDigitsReadsBack(n: nat)
    ensures ParseNat(TwoDigits(n)) == n
  {
    if n < 10 {
      var s := TwoDigits(n);
      assert s[..1] == "0" && s[..1][..0] == [];
      assert ParseNat(s[..1]) == 0;
    } else {
      ParseNatToString(n);
    }
  }

  /** The custom format "00" of any integer: a minus sign before the digits of a negative one. */
  function FormatTwoDigits(n: int): (s: string)
    ensures n >= 0 ==> s == TwoDigits(n)
    ensures n < 0 ==> s == "-" + TwoDigits(-n)
    ensures |s| >= (if n < 0 then 3 else 2)
    ensures (n < 0) == (s[0] == '-')
    ensures ParseNat(if n < 0 then s[1..] else s) == (if n < 0 then -n else n)
  {
    var m := if n < 0 then -n else n;
    TwoDigitsReadsBack(m);
    assert IsDigit(TwoDigits(m)[0]);
    if n < 0 then
      var s := "-" + TwoDigits(m);
      assert s[1..] == TwoDigits(m);
      s
    else TwoDigits(m)
  }
}
