/**
 * The five character pools of src/charset.c, as their literals are written.
 * The comments beside them (and in include/common.h) claim 22 symbols and 84
 * characters in the full set; the literals hold 21 and 83.
 */
module Charset {

  import opened Common

  /** CHARSET_FULL */
  const Full := "abcdefghijklmnopqrstuvwxyzABCDEFGHIJKLMNOPQRSTUVWXYZ0123456789!@#$%^&*()-_=+[]{}<?>"
  /** CHARSET_ALPHANUM */
  const Alphanum := "abcdefghijklmnopqrstuvwxyzABCDEFGHIJKLMNOPQRSTUVWXYZ0123456789"
  /** CHARSET_LETTERS */
  const Letters := "abcdefghijklmnopqrstuvwxyzABCDEFGHIJKLMNOPQRSTUVWXYZ"
  /** CHARSET_NUMBERS */
  const Numbers := "0123456789"
  /** CHARSET_SYMBOLS */
  const Symbols := "!@#$%^&*()-_=+[]{}<?>"

  /** The run of n consecutive character codes starting at first. */
  function Run(first: char, n: nat): (r: seq<char>)
    requires first as int + n <= 0xD800
    ensures |r| == n
    ensures forall i :: 0 <= i < n ==> r[i] as int == first as int + i
  {
    seq(n, i requires 0 <= i < n => (first as int + i) as char)
  }

  predicate IsLetter(c: char) { 'a' <= c <= 'z' || 'A' <= c <= 'Z' }

  predicate Disjoint(s: seq<char>, t: seq<char>) {
    forall i, j :: 0 <= i < |s| && 0 <= j < |t| ==> s[i] != t[j]
  }

  lemma LowerCaseRun()
    ensures "abcdefghijklmnopqrstuvwxyz" == Run('a', 26)
  {
    var lower := "abcdefghijklmnopqrstuvwxyz";
    assert forall i :: 0 <= i < 26 ==> lower[i] as int == 'a' as int + i;
  }

  lemma UpperCaseRun()
    ensures "ABCDEFGHIJKLMNOPQRSTUVWXYZ" == Run('A', 26)
  {
    var upper := "ABCDEFGHIJKLMNOPQRSTUVWXYZ";
    assert forall i :: 0 <= i < 26 ==> upper[i] as int == 'A' as int + i;
  }

  /** CHARSET_LETTERS is a-z followed by A-Z: 52 characters. */
  lemma LettersAreTwoRuns()
    ensures Letters == Run('a', 26) + Run('A', 26)
    ensures |Letters| == 52
  {
    assert Letters == "abcdefghijklmnopqrstuvwxyz" + "ABCDEFGHIJKLMNOPQRSTUVWXYZ";
    LowerCaseRun();
    UpperCaseRun();
  }

  /** The sizes of the three category pools: 52 letters, 10 digits, 21 symbols. */
  lemma PoolSizes()
    ensures |Letters| == 52 && |Numbers| == 10 && |Symbols| == 21
  {
  }

  /** CHARSET_NUMBERS is 0-9: 10 characters. */
  lemma NumbersAreDigitRun()
    ensures Numbers == Run('0', 10)
  {
    assert forall i :: 0 <= i < 10 ==> Numbers[i] as int == '0' as int + i;
  }

  /** CHARSET_SYMBOLS holds 21 distinct characters, none a letter or a digit. */
  lemma SymbolsShape()
    ensures |Symbols| == 21 && NoDuplicates(Symbols)
    ensures forall i :: 0 <= i < |Symbols| ==> !IsLetter(Symbols[i]) && !IsDigit(Symbols[i])
  {
  }

  /** The two composite pools are the concatenations of the category pools: 62 and 83 characters. */
  lemma CompositesAreConcatenations()
    ensures Alphanum == Letters + Numbers && |Alphanum| == 62
    ensures Full == Letters + Numbers + Symbols && |Full| == 83
  {
  }

  /** Every character of CHARSET_LETTERS is a letter, and none repeats. */
  lemma LettersShape()
    ensures forall i :: 0 <= i < |Letters| ==> IsLetter(Letters[i])
    ensures NoDuplicates(Letters)
  {
    LettersAreTwoRuns();
    forall i, j | 0 <= i < j < |Letters| ensures Letters[i] != Letters[j] {
      if j < 26 || 26 <= i {
        assert Letters[i] as int < Letters[j] as int;
      } else {
        assert 'a' <= Letters[i] <= 'z' && 'A' <= Letters[j] <= 'Z';
      }
    }
  }

  /** Every character of CHARSET_NUMBERS is a digit, and none repeats. */
  lemma NumbersShape()
    ensures forall i :: 0 <= i < |Numbers| ==> IsDigit(Numbers[i])
    ensures NoDuplicates(Numbers)
  {
    NumbersAreDigitRun();
  }

  /** The three category pools share no character. */
  lemma CategoriesDisjoint()
    ensures Disjoint(Letters, Numbers) && Disjoint(Letters, Symbols) && Disjoint(Numbers, Symbols)
  {
    LettersShape();
    NumbersShape();
    SymbolsShape();
  }
}
