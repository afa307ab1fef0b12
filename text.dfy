/** Character-level helpers shared by the front end and the back end: ASCII case
    folding, Python's substring test and decimal rendering of natural numbers. */
module Text {

  /** ASCII lower-casing of one character (String.prototype.toLowerCase, str.lower). */
  function LowerChar(c: char): (r: char)
    ensures 'A' <= c <= 'Z' ==> r as int == c as int + 32
    ensures !('A' <= c <= 'Z') ==> r == c
  {
    if 'A' <= c <= 'Z' then (c as int + 32) as char else c
  }

  function Lower(s: string): (r: string)
    ensures |r| == |s|
    ensures forall i :: 0 <= i < |s| ==> r[i] == LowerChar(s[i])
  {
    seq(|s|, i requires 0 <= i < |s| => LowerChar(s[i]))
  }

  /** Lower-casing twice is lower-casing once. */
  lemma LowerIdempotent(s: string)
    ensures Lower(Lower(s)) == Lower(s)
  {
    var once := Lower(s);
    forall i | 0 <= i < |s|
      ensures Lower(once)[i] == once[i]
    {
      assert !('A' <= once[i] <= 'Z');
    }
  }

  /** Python's `needle in hay` on strings: `needle` occurs at some position of `hay`. */
  predicate Contains(hay: string, needle: string)
    decreases |hay|
  {
    needle <= hay || (|hay| > 0 && Contains(hay[1..], needle))
  }

  /** `Contains` holds exactly when `needle` sits at some offset of `hay`. */
  lemma {:induction false} ContainsAt(hay: string, needle: string)
    ensures Contains(hay, needle) <==>
            exists k :: 0 <= k <= |hay| - |needle| && needle <= hay[k..]
    decreases |hay|
  {
    if needle <= hay {
      assert needle <= hay[0..];
    } else if |hay| > 0 {
      ContainsAt(hay[1..], needle);
      if Contains(hay[1..], needle) {
        var k :| 0 <= k <= |hay[1..]| - |needle| && needle <= hay[1..][k..];
        assert hay[1..][k..] == hay[k + 1..];
      }
      if exists k :: 0 <= k <= |hay| - |needle| && needle <= hay[k..] {
        var k :| 0 <= k <= |hay| - |needle| && needle <= hay[k..];
        assert k != 0 by { assert hay[0..] == hay; }
        assert hay[1..][k - 1..] == hay[k..];
      }
    }
  }

  predicate IsDigit(c: char) {
    '0' <= c <= '9'
  }

  function DigitChar(d: nat): (c: char)
    requires d < 10
    ensures IsDigit(c)
  {
    ('0' as int + d) as char
  }

  function DigitValue(c: char): (d: nat)
    requires IsDigit(c)
    ensures d < 10 && DigitChar(d) == c
  {
    c as int - '0' as int
  }

  /** Decimal rendering of a natural number without leading zeros, as JavaScript's
      template literal `${n}` prints a non-negative integer. */
  function Decimal(n: nat): (r: string)
    ensures |r| >= 1
    ensures forall i :: 0 <= i < |r| ==> IsDigit(r[i])
    ensures n < 10 <==> |r| == 1
  {
    if n < 10 then [DigitChar(n)] else Decimal(n / 10) + [DigitChar(n % 10)]
  }

  /** Reads a non-empty string of decimal digits back as a number. */
  function ParseDecimal(s: string): nat
    requires |s| >= 1
    requires forall i :: 0 <= i < |s| ==> IsDigit(s[i])
  {
    if |s| == 1 then DigitValue(s[0])
    else 10 * ParseDecimal(s[..|s| - 1]) + DigitValue(s[|s| - 1])
  }

  /** Parsing inverts rendering. */
  lemma {:induction false} ParseDecimalOfDecimal(n: nat)
    ensures ParseDecimal(Decimal(n)) == n
  {
    if n >= 10 {
      ParseDecimalOfDecimal(n / 10);
      var s := Decimal(n);
      assert s[..|s| - 1] == Decimal(n / 10);
    }
  }
}
