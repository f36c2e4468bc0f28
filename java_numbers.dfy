/**
 * The numeric and boolean text conversions the argument binder applies:
 * Long.parseLong, Integer.parseInt (radix 10) and Boolean.parseBoolean.
 * A parse that Java would reject with NumberFormatException yields None.
 */
module JavaNumbers {
  import opened Wrappers
  import opened JavaText

  const LONG_MIN: int := -0x8000_0000_0000_0000
  const LONG_MAX: int := 0x7fff_ffff_ffff_ffff
  const INT_MIN: int := -0x8000_0000
  const INT_MAX: int := 0x7fff_ffff

  predicate InLongRange(n: int) {
    LONG_MIN <= n <= LONG_MAX
  }

  predicate InIntRange(n: int) {
    INT_MIN <= n <= INT_MAX
  }

  /** The syntax parseLong/parseInt accept: one leading '+' or '-' at most, then one or more digits. */
  predicate IsNumeral(s: string) {
    |s| >= 1 &&
    if s[0] == '-' || s[0] == '+' then |s| >= 2 && AllDigits(s[1..]) else AllDigits(s)
  }

  function NumeralValue(s: string): int
    requires IsNumeral(s)
  {
    if s[0] == '-' then -(DigitsValue(s[1..]) as int)
    else if s[0] == '+' then DigitsValue(s[1..])
    else DigitsValue(s)
  }

  /**
   * The shared rule of parseLong and parseInt: the text must be a numeral whose
   * value lies within [lo, hi]; a value outside the range overflows and is rejected
   * like any other malformed input.
   */
  function ParseInRange(s: string, lo: int, hi: int): (r: Option<int>)
    ensures r.Some? ==> IsNumeral(s) && lo <= r.value <= hi
  {
    if IsNumeral(s) && lo <= NumeralValue(s) <= hi then Some(NumeralValue(s)) else None
  }

  /** Long.parseLong(s). */
  function ParseLong(s: string): (r: Option<int>)
    ensures r.Some? ==> InLongRange(r.value)
  {
    ParseInRange(s, LONG_MIN, LONG_MAX)
  }

  /** Integer.parseInt(s). */
  function ParseInt(s: string): (r: Option<int>)
    ensures r.Some? ==> InIntRange(r.value)
  {
    ParseInRange(s, INT_MIN, INT_MAX)
  }

  /** Boolean.parseBoolean(s): true exactly for "true" in any letter case, false for every other text. */
  function ParseBoolean(s: string): bool {
    EqualsIgnoreCaseLower(s, "true")
  }

  /** The decimal text of an integer is a numeral denoting that integer. */
  lemma ToDecimalIsNumeral(n: int)
    ensures IsNumeral(ToDecimal(n)) && NumeralValue(ToDecimal(n)) == n
  {
    if n < 0 {
      NegativeDecimal(n);
    } else {
      NonNegativeDecimal(n);
    }
  }

  lemma NegativeDecimal(n: int)
    requires n < 0
    ensures IsNumeral(ToDecimal(n)) && NumeralValue(ToDecimal(n)) == n
  {
    var m: nat := -n;
    var d := NatDigits(m);
    NatDigitsValue(m);
    MinusNumeral(d);
    assert ToDecimal(n) == "-" + d;
  }

  /** A minus sign before a run of digits is a numeral denoting the negated run. */
  lemma MinusNumeral(d: string)
    requires |d| >= 1 && AllDigits(d)
    ensures IsNumeral("-" + d) && NumeralValue("-" + d) == -(DigitsValue(d) as int)
  {
    var s := "-" + d;
    assert s[0] == '-' && s[1..] == d;
  }

  lemma NonNegativeDecimal(n: int)
    requires n >= 0
    ensures IsNumeral(ToDecimal(n)) && NumeralValue(ToDecimal(n)) == n
  {
    var s := NatDigits(n);
    assert IsDigit(s[0]);
    NatDigitsValue(n);
  }

  /** parseLong reads back every long written by Long.toString. */
  lemma ParseLongRoundTrip(n: int)
    requires InLongRange(n)
    ensures ParseLong(ToDecimal(n)) == Some(n)
  {
    ToDecimalIsNumeral(n);
  }

  /** parseInt reads back every int written by Integer.toString. */
  lemma ParseIntRoundTrip(n: int)
    requires InIntRange(n)
    ensures ParseInt(ToDecimal(n)) == Some(n)
  {
    ToDecimalIsNumeral(n);
  }

  /** The decimal text of an integer outside the long range is rejected by parseLong. */
  lemma ParseLongRejectsOverflow(n: int)
    requires !InLongRange(n)
    ensures ParseLong(ToDecimal(n)) == None
  {
    ToDecimalIsNumeral(n);
  }

  /** The decimal text of an integer outside the int range is rejected by parseInt. */
  lemma ParseIntRejectsOverflow(n: int)
    requires !InIntRange(n)
    ensures ParseInt(ToDecimal(n)) == None
  {
    ToDecimalIsNumeral(n);
  }

  /** Whatever parseInt accepts, parseLong accepts with the same value. */
  lemma ParseIntAgreesWithParseLong(s: string)
    requires ParseInt(s).Some?
    ensures ParseLong(s) == ParseInt(s)
  {
  }

  /** Worked cases: a plain numeral and one with an explicit plus sign. */
  lemma ParseLongAccepts()
    ensures ParseLong("7") == Some(7)
    ensures ParseLong("+42") == Some(42)
  {
    assert DigitsValue("7") == 7 by { assert "7"[..0] == []; }
    var p := "+42";
    assert p[1..] == "42";
    assert DigitsValue("42") == 42 by {
      assert "42"[..1] == "4";
      assert "4"[..0] == [];
    }
  }

  /** Worked cases: texts that are not numerals. */
  lemma ParseLongRejects()
    ensures ParseLong("abc") == None
    ensures ParseLong("") == None
    ensures ParseLong("-") == None
    ensures ParseLong("7.0") == None
  {
    assert !IsDigit("abc"[0]);
    assert !IsDigit("7.0"[1]);
  }

  /** parseBoolean accepts "true" in any case and nothing else of another length. */
  lemma ParseBooleanExamples()
    ensures ParseBoolean("true") && ParseBoolean("TRUE") && ParseBoolean("tRuE")
    ensures !ParseBoolean("false") && !ParseBoolean("yes") && !ParseBoolean("1") && !ParseBoolean("")
  {
    assert LowerAscii('T') == 't' && LowerAscii('R') == 'r' && LowerAscii('U') == 'u' && LowerAscii('E') == 'e';
    assert LowerAscii('y') != 't';
  }

  /** parseBoolean is true exactly of the sixteen spellings of "true" that differ only in letter case. */
  lemma ParseBooleanCharacterised(s: string)
    ensures ParseBoolean(s) <==>
      |s| == 4 && s[0] in "tT" && s[1] in "rR" && s[2] in "uU" && s[3] in "eE"
  {
  }
}
