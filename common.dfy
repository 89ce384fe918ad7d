/**
 * Constants and value types shared by every part of the password generator:
 * the length limits of include/common.h, C strings as Dafny sequences, and the
 * six-field password configuration used by the argument parser, the
 * interactive menu and the advanced generator.
 */
module Common {

  /** MIN_PASSWORD_LENGTH: shortest password either generator accepts. */
  const MinPasswordLength := 4
  /** MAX_PASSWORD_LENGTH and MAX_CATEGORY_LENGTH; declared, but no generator checks them. */
  const MaxPasswordLength := 1024
  const MaxCategoryLength := 1024
  /** DEFAULT_BATCH_LENGTH: the batch-mode length used when the argument parses to 0. */
  const DefaultBatchLength := 16
  /** MAX_INT_PARSE_VALUE: the cap applied by the decimal parsers. */
  const MaxIntParseValue := 100000
  /** Largest accepted length value (exclusive) for the parser and the menu. */
  const LengthLimit := 1024
  /** MAXDWORD, the largest value of a 32-bit unsigned word. */
  const MaxDword := 0xFFFF_FFFF

  /** INT_MAX: buffer lengths are C ints. */
  const IntMax := 0x7FFF_FFFF

  /** An unsigned byte, as CryptGenRandom writes it into a BYTE buffer. */
  type Byte = x: int | 0 <= x < 256

  /** A 32-bit unsigned value (DWORD). */
  type Dword = x: int | 0 <= x <= MaxDword

  datatype Option<+T> = None | Some(value: T)

  /** A C string holds no NUL before its terminator; the terminator itself is not part of the sequence. */
  predicate NulFree(s: seq<char>) {
    forall i :: 0 <= i < |s| ==> s[i] != '\0'
  }

  /** The contents of a NUL-terminated string, narrow or wide. */
  type CStr = s: seq<char> | NulFree(s)

  /** No character occurs twice. */
  predicate NoDuplicates(s: seq<char>) {
    forall i, j :: 0 <= i < j < |s| ==> s[i] != s[j]
  }

  /** A decimal digit, '0' through '9'. */
  predicate IsDigit(c: char) { '0' <= c <= '9' }

  /** The character a C loop reads at offset i: past the end it meets the terminator. */
  function CharAt(s: CStr, i: nat): (c: char)
    ensures c == '\0' <==> i >= |s|
  {
    if i < |s| then s[i] else '\0'
  }

  /**
   * The category flags and per-category lengths. The parser's PasswordConfig
   * struct and the six local variables of the interactive menu hold exactly
   * this. Every writer keeps the lengths non-negative, so they are nat.
   */
  datatype PasswordConfig = PasswordConfig(
    useLetters: bool, useNumbers: bool, useSymbols: bool,
    letterLength: nat, numberLength: nat, symbolLength: nat)

  /** The configuration both the parser and the menu start from: everything on, 8 + 4 + 4. */
  const DefaultConfig := PasswordConfig(true, true, true, 8, 4, 4)

  /** A category's contribution to the total: its length if enabled, else nothing. */
  function Enabled(use: bool, length: nat): (n: nat)
    ensures n <= length && (use ==> n == length) && (!use ==> n == 0)
  {
    if use then length else 0
  }

  /**
   * The total password length: the sum of the lengths of the enabled
   * categories only; a disabled category's stored length is ignored.
   */
  function TotalLength(c: PasswordConfig): (n: nat)
    ensures n <= c.letterLength + c.numberLength + c.symbolLength
    ensures c.useLetters && c.useNumbers && c.useSymbols ==> n == c.letterLength + c.numberLength + c.symbolLength
    ensures !c.useLetters && !c.useNumbers && !c.useSymbols ==> n == 0
  {
    Enabled(c.useLetters, c.letterLength) + Enabled(c.useNumbers, c.numberLength)
      + Enabled(c.useSymbols, c.symbolLength)
  }

  /** Disabling one enabled category lowers the total by exactly that category's length. */
  lemma DisablingLowersTotal(c: PasswordConfig)
    ensures c.useLetters ==> TotalLength(c.(useLetters := false)) == TotalLength(c) - c.letterLength
    ensures c.useNumbers ==> TotalLength(c.(useNumbers := false)) == TotalLength(c) - c.numberLength
    ensures c.useSymbols ==> TotalLength(c.(useSymbols := false)) == TotalLength(c) - c.symbolLength
  {
  }
}
