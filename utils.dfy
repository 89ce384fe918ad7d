/**
 * The string helpers of src/utils.c. Each C helper walks a NUL-terminated
 * string with a pointer; here the string is a CStr and the walk is a loop over
 * an index, reading CharAt (the terminator past the end). Each loop is proved
 * equal to a functional definition, about which the promised properties are
 * proved.
 */
module Utils {

  import opened Common

  /** The leading run of decimal digits of s: the part a decimal parse reads. */
  function LeadingDigits(s: seq<char>): (d: seq<char>)
    ensures |d| <= |s| && d == s[..|d|]
    ensures forall k :: 0 <= k < |d| ==> IsDigit(d[k])
    ensures |d| < |s| ==> !IsDigit(s[|d|])
  {
    if s == [] || !IsDigit(s[0]) then [] else [s[0]] + LeadingDigits(s[1..])
  }

  predicate AllDigits(d: seq<char>) {
    forall k :: 0 <= k < |d| ==> IsDigit(d[k])
  }

  function DigitValue(c: char): (v: nat)
    requires IsDigit(c)
    ensures v <= 9
  {
    c as int - '0' as int
  }

  /** The base-10 value of a run of digits, most significant first. */
  function DigitsValue(d: seq<char>): nat
    requires AllDigits(d)
  {
    if d == [] then 0 else DigitsValue(d[..|d| - 1]) * 10 + DigitValue(d[|d| - 1])
  }

  /**
   * What SimpleStrToInt and SimpleWStrToInt compute: the value of the leading
   * digit run, capped at MAX_INT_PARSE_VALUE; 0 when s does not start with a digit.
   */
  function ParseDecimal(s: seq<char>): (n: nat)
  {
    var v := DigitsValue(LeadingDigits(s));
    if v > MaxIntParseValue then MaxIntParseValue else v
  }

  /** A longer digit run never has a smaller value. */
  lemma {:induction false} DigitsValueMonotone(d: seq<char>, k: nat)
    requires AllDigits(d) && k <= |d|
    ensures DigitsValue(d[..k]) <= DigitsValue(d)
    decreases |d|
  {
    if k < |d| {
      assert d[..|d| - 1][..k] == d[..k];
      DigitsValueMonotone(d[..|d| - 1], k);
    } else {
      assert d[..k] == d;
    }
  }

  /** A digit prefix of s is a prefix of its leading digit run. */
  lemma {:induction false} DigitPrefixOfLeading(s: seq<char>, i: nat)
    requires i <= |s| && AllDigits(s[..i])
    ensures i <= |LeadingDigits(s)| && LeadingDigits(s)[..i] == s[..i]
  {
    if i > 0 {
      assert IsDigit(s[..i][0]);
      assert s[1..][..i - 1] == s[..i][1..];
      DigitPrefixOfLeading(s[1..], i - 1);
    }
  }

  /** The result always lies in [0, MAX_INT_PARSE_VALUE], and is the exact value below the cap. */
  lemma ParseDecimalRange(s: seq<char>)
    ensures 0 <= ParseDecimal(s) <= MaxIntParseValue
    ensures DigitsValue(LeadingDigits(s)) <= MaxIntParseValue ==> ParseDecimal(s) == DigitsValue(LeadingDigits(s))
    ensures s == [] || !IsDigit(s[0]) ==> ParseDecimal(s) == 0
  {
  }

  /** Parsing stops at the first non-digit: whatever follows it never changes the result. */
  lemma {:induction false} ParseStopsAtNonDigit(s: seq<char>, k: nat, rest: seq<char>)
    requires k < |s| && !IsDigit(s[k])
    ensures ParseDecimal(s[..k + 1] + rest) == ParseDecimal(s)
  {
    LeadingDigitsStop(s[..k + 1], rest);
    LeadingDigitsStop(s[..k + 1], s[k + 1..]);
    assert s[..k + 1] + s[k + 1..] == s;
  }

  /** Once u holds a non-digit, the leading digit run of u + v lies inside u. */
  lemma {:induction false} LeadingDigitsStop(u: seq<char>, v: seq<char>)
    requires exists k :: 0 <= k < |u| && !IsDigit(u[k])
    ensures LeadingDigits(u + v) == LeadingDigits(u)
  {
    if IsDigit(u[0]) {
      assert (u + v)[1..] == u[1..] + v;
      var k :| 0 <= k < |u| && !IsDigit(u[k]);
      assert !IsDigit(u[1..][k - 1]);
      LeadingDigitsStop(u[1..], v);
    }
  }

  /**
   * SimpleStrToInt: accumulate digits while they last; return the cap as soon
   * as the value would exceed it, either before multiplying (res > 10000) or
   * after adding the digit (res > 100000).
   */
  method SimpleStrToInt(str: CStr) returns (res: int)
    ensures res == ParseDecimal(str)
    ensures 0 <= res <= MaxIntParseValue
  {
    res := 0;
    var i := 0;
    while IsDigit(CharAt(str, i))
      invariant 0 <= i <= |str| && AllDigits(str[..i])
      invariant res == DigitsValue(str[..i]) <= MaxIntParseValue
      decreases |str| - i
    {
      assert str[..i + 1][..i] == str[..i];
      assert DigitsValue(str[..i + 1]) == res * 10 + DigitValue(str[i]);
      if res > MaxIntParseValue / 10 {
        CappedWhenExceeded(str, i + 1);
        return MaxIntParseValue;
      }
      res := res * 10 + (str[i] as int - '0' as int);
      if res > MaxIntParseValue {
        CappedWhenExceeded(str, i + 1);
        return MaxIntParseValue;
      }
      i := i + 1;
    }
    DigitPrefixOfLeading(str, i);
    assert LeadingDigits(str) == str[..i];
  }

  /**
   * SimpleWStrToInt: the same algorithm over wide characters (L'0' .. L'9').
   * Wide and narrow characters are both Dafny chars, so the result is the same function.
   */
  method SimpleWStrToInt(str: CStr) returns (res: int)
    ensures res == ParseDecimal(str)
    ensures 0 <= res <= MaxIntParseValue
  {
    res := 0;
    var i := 0;
    while IsDigit(CharAt(str, i))
      invariant 0 <= i <= |str| && AllDigits(str[..i])
      invariant res == DigitsValue(str[..i]) <= MaxIntParseValue
      decreases |str| - i
    {
      assert str[..i + 1][..i] == str[..i];
      assert DigitsValue(str[..i + 1]) == res * 10 + DigitValue(str[i]);
      if res > MaxIntParseValue / 10 {
        CappedWhenExceeded(str, i + 1);
        return MaxIntParseValue;
      }
      res := res * 10 + (str[i] as int - '0' as int);
      if res > MaxIntParseValue {
        CappedWhenExceeded(str, i + 1);
        return MaxIntParseValue;
      }
      i := i + 1;
    }
    DigitPrefixOfLeading(str, i);
    assert LeadingDigits(str) == str[..i];
  }

  /** A digit prefix already worth more than the cap makes the whole parse the cap. */
  lemma CappedWhenExceeded(s: seq<char>, i: nat)
    requires i <= |s| && AllDigits(s[..i])
    requires DigitsValue(s[..i]) > MaxIntParseValue
    ensures ParseDecimal(s) == MaxIntParseValue
  {
    DigitPrefixOfLeading(s, i);
    DigitsValueMonotone(LeadingDigits(s), i);
  }

  /**
   * WStrEquals: compare a wide string with an ASCII literal character by
   * character; after the literal ends, the wide string must end too.
   */
  method WStrEquals(wstr: CStr, str: CStr) returns (equal: bool)
    ensures equal <==> wstr == str
  {
    var i := 0;
    while CharAt(str, i) != '\0'
      invariant 0 <= i <= |str| && i <= |wstr|
      invariant wstr[..i] == str[..i]
      decreases |str| - i
    {
      if CharAt(wstr, i) != str[i] {
        return false;
      }
      i := i + 1;
    }
    equal := CharAt(wstr, i) == '\0';
    assert equal ==> wstr == wstr[..i];
    assert !equal ==> |wstr| != |str|;
  }

  /** wstr starts with prefix. */
  predicate StartsWith(wstr: seq<char>, prefix: seq<char>) {
    |prefix| <= |wstr| && wstr[..|prefix|] == prefix
  }

  /**
   * WStrStartsWith: compare while the prefix lasts. A wide string shorter than
   * the prefix fails on its own terminator; the index never passes it.
   */
  method WStrStartsWith(wstr: CStr, prefix: CStr) returns (starts: bool)
    ensures starts <==> StartsWith(wstr, prefix)
  {
    var i := 0;
    while CharAt(prefix, i) != '\0'
      invariant 0 <= i <= |prefix| && i <= |wstr|
      invariant wstr[..i] == prefix[..i]
      decreases |prefix| - i
    {
      if CharAt(wstr, i) != prefix[i] {
        return false;
      }
      i := i + 1;
    }
    starts := true;
  }

  /** The value after the first '=' of arg, parsed as a capped decimal; -1 when arg has no '='. */
  function ValueAfterEquals(arg: seq<char>): (v: int)
    ensures -1 <= v <= MaxIntParseValue
    ensures v == -1 <==> '=' !in arg
  {
    if arg == [] then -1
    else if arg[0] == '=' then ParseDecimal(arg[1..])
    else ValueAfterEquals(arg[1..])
  }

  /** With the first '=' at position k, the value is the parse of what follows it. */
  lemma {:induction false} ValueAfterFirstEquals(arg: seq<char>, k: nat)
    requires k < |arg| && arg[k] == '=' && '=' !in arg[..k]
    ensures ValueAfterEquals(arg) == ParseDecimal(arg[k + 1..])
  {
    if k > 0 {
      assert arg[0] == arg[..k][0];
      assert arg[1..][..k - 1] == arg[..k][1..];
      assert arg[1..][k..] == arg[k + 1..];
      ValueAfterFirstEquals(arg[1..], k - 1);
    }
  }

  /** ExtractValueFromArg: scan to the first '=' or the terminator; parse after the '='. */
  method ExtractValueFromArg(arg: CStr) returns (value: int)
    ensures value == ValueAfterEquals(arg)
  {
    var i := 0;
    while CharAt(arg, i) != '\0' && CharAt(arg, i) != '='
      invariant 0 <= i <= |arg| && ValueAfterEquals(arg[i..]) == ValueAfterEquals(arg)
      decreases |arg| - i
    {
      assert arg[i..][1..] == arg[i + 1..];
      i := i + 1;
    }
    if CharAt(arg, i) == '=' {
      assert arg[i..][1..] == arg[i + 1..];
      value := SimpleWStrToInt(arg[i + 1..]);
      return;
    }
    value := -1;
  }
}
