/**
 * The arithmetic helpers of the battlepass: the points award, the cost of
 * the next level and the hexadecimal rendering of identifiers used in logs.
 * The same `decimal_to_hex` and `points_to_level_up` appear in three helper
 * files of the repository; they are one definition here.
 */
module HexUtils {

  /** Points awarded per claim: double XP doubles the base award of 15. */
  function Points(doubleXp: bool): (r: int)
  {
    if doubleXp then 30 else 15
  }

  lemma DoubleXpDoubles()
    ensures Points(true) == 2 * Points(false) && Points(false) == 15
  {
  }

  /** Points needed to go from `level` to `level + 1`. */
  function PointsToLevelUp(level: int): (r: int)
  {
    10 * level + 90
  }

  /** Level 1 costs 100, each further level costs exactly 10 more than the one below it. */
  lemma LevelCostSteps(level: int)
    ensures PointsToLevelUp(1) == 100
    ensures PointsToLevelUp(level + 1) == PointsToLevelUp(level) + 10
  {
  }

  /** The cost of a tier-up strictly increases with the level. */
  lemma {:induction false} LevelCostIncreasing(a: int, b: int)
    requires a < b
    ensures PointsToLevelUp(a) < PointsToLevelUp(b)
    decreases b - a
  {
    if a + 1 < b {
      LevelCostIncreasing(a + 1, b);
    }
  }

  // ---------------------------------------------------------------------
  // Python's hex() and the split('x')[-1] that strips its prefix
  // ---------------------------------------------------------------------

  /** One of `0-9a-f`, the only characters Python's `hex` prints after its prefix. */
  predicate IsLowerHexDigit(c: char)
  {
    '0' <= c <= '9' || 'a' <= c <= 'f'
  }

  /** The digit character of `d` in base 16, lower-case as Python prints it. */
  function HexChar(d: nat): (c: char)
    requires d < 16
    ensures IsLowerHexDigit(c) && c != 'x'
    ensures HexCharValue(c) == d
  {
    if d < 10 then ('0' as int + d) as char else ('a' as int + d - 10) as char
  }

  /** The value of a single hexadecimal digit (0 for anything else). */
  function HexCharValue(c: char): (r: nat)
  {
    if '0' <= c <= '9' then (c - '0') as nat
    else if 'a' <= c <= 'f' then (c - 'a') as nat + 10
    else 0
  }

  /** Base-16 digits of `n` without leading zeros, most significant first. */
  function HexDigits(n: nat): (r: string)
    ensures |r| >= 1
    ensures forall i :: 0 <= i < |r| ==> IsLowerHexDigit(r[i])
    ensures r[0] == '0' <==> n == 0
    ensures n == 0 ==> r == "0"
    decreases n
  {
    if n < 16 then [HexChar(n)] else HexDigits(n / 16) + [HexChar(n % 16)]
  }

  /** Reads a string of hexadecimal digits back as a number. */
  function HexValue(s: string): (r: nat)
  {
    if |s| == 0 then 0 else HexValue(s[..|s| - 1]) * 16 + HexCharValue(s[|s| - 1])
  }

  lemma {:induction false} HexRoundTrip(n: nat)
    ensures HexValue(HexDigits(n)) == n
    decreases n
  {
    var r := HexDigits(n);
    if n < 16 {
      assert r[..|r| - 1] == [];
    } else {
      HexRoundTrip(n / 16);
      assert r[..|r| - 1] == HexDigits(n / 16);
      assert HexValue(r) == (n / 16) * 16 + n % 16;
    }
  }

  /** What Python's `hex(n)` returns: an optional minus sign, `0x`, then the digits of |n|. */
  function PythonHex(n: int): (r: string)
  {
    (if n < 0 then "-" else "") + "0x" + HexDigits(if n < 0 then -n else n)
  }

  /** `s.split(sep)[-1]`: the text after the last `sep`, or all of `s` when there is none. */
  function AfterLast(s: string, sep: char): (r: string)
    ensures |r| <= |s| && r == s[|s| - |r|..]
    ensures sep !in r
    ensures sep !in s ==> r == s
    ensures |r| < |s| ==> s[|s| - |r| - 1] == sep
  {
    if |s| == 0 then []
    else if s[|s| - 1] == sep then []
    else AfterLast(s[..|s| - 1], sep) + [s[|s| - 1]]
  }

  lemma {:induction false} AfterLastOfSuffix(prefix: string, sep: char, tail: string)
    requires sep !in tail
    ensures AfterLast(prefix + [sep] + tail, sep) == tail
    decreases |tail|
  {
    var s := prefix + [sep] + tail;
    if |tail| > 0 {
      var t := tail[..|tail| - 1];
      assert s[..|s| - 1] == prefix + [sep] + t;
      AfterLastOfSuffix(prefix, sep, t);
      assert tail == t + [tail[|tail| - 1]];
    }
  }

  /** The identifier rendering used in log lines: `hex(decimal).split('x')[-1]`. */
  function DecimalToHex(decimal: int): (r: string)
  {
    AfterLast(PythonHex(decimal), 'x')
  }

  /** Splitting at the last `x` removes exactly the sign and the `0x` prefix. */
  lemma DecimalToHexIsDigits(decimal: int)
    ensures DecimalToHex(decimal) == HexDigits(if decimal < 0 then -decimal else decimal)
  {
    var d := HexDigits(if decimal < 0 then -decimal else decimal);
    assert 'x' !in d by {
      forall i | 0 <= i < |d| ensures d[i] != 'x' { assert IsLowerHexDigit(d[i]); }
    }
    var sign: string := if decimal < 0 then "-" else "";
    assert PythonHex(decimal) == (sign + "0") + ['x'] + d;
    AfterLastOfSuffix(sign + "0", 'x', d);
  }

  /** The output is lower-case hexadecimal digits only, with no prefix and no leading zero. */
  lemma DecimalToHexShape(decimal: int)
    ensures |DecimalToHex(decimal)| >= 1
    ensures forall i :: 0 <= i < |DecimalToHex(decimal)| ==> IsLowerHexDigit(DecimalToHex(decimal)[i])
    ensures DecimalToHex(decimal)[0] == '0' <==> decimal == 0
    ensures DecimalToHex(0) == "0"
  {
    DecimalToHexIsDigits(decimal);
    DecimalToHexIsDigits(0);
  }

  /** For a non-negative argument the output reads back as the argument. */
  lemma DecimalToHexRoundTrip(decimal: int)
    requires decimal >= 0
    ensures HexValue(DecimalToHex(decimal)) == decimal
  {
    DecimalToHexIsDigits(decimal);
    HexRoundTrip(decimal);
  }

  /** The sign is lost: a negative argument renders like its absolute value. */
  lemma DecimalToHexDropsSign(decimal: int)
    ensures DecimalToHex(decimal) == DecimalToHex(-decimal)
  {
    DecimalToHexIsDigits(decimal);
    DecimalToHexIsDigits(-decimal);
  }
}
