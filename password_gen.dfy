/**
 * GenerateCore and GenerateAdvanced of src/password_gen.c.
 *
 * Console output, the clipboard and the "Press Enter" pauses are left out;
 * what is kept is the decision each function takes and the password buffer
 * it fills (the one copied to the clipboard). The environment supplies the outcome of the two heap
 * allocations, of acquiring the CryptoAPI context, the bytes of the bulk
 * CryptGenRandom call and the 32-bit draws of the shuffle.
 */
module PasswordGen {

  import opened Common
  import opened Charset
  import opened Shuffle

  /**
   * What the operating system answers: whether both HeapAlloc calls succeed,
   * whether CryptAcquireContext succeeds, the random bytes available to the
   * bulk CryptGenRandom call (None: the call fails), and the DWORD draws the
   * shuffle will see.
   */
  datatype Env = Env(heapOk: bool, contextOk: bool, fill: Option<seq<Byte>>, words: seq<Draw>)

  /** The result of one generation call: an error message, or the password buffer (as copied to the clipboard). */
  datatype Outcome =
    | TooShort            // "[ERROR] Password length must be at least 4 characters!"
    | NoCategoryEnabled   // "[ERROR] At least one character type must be enabled!"
    | MemoryError         // PrintError("Memory Error")
    | ContextFailed       // PrintError("Crypto Context Failed")
    | RandomFailed        // PrintError("GenRandom Failed")
    | Generated(password: seq<char>)

  /** CryptGenRandom for n bytes: succeeds when the source holds at least n bytes, and yields the first n. */
  function FillBytes(fill: Option<seq<Byte>>, n: nat): Option<seq<Byte>>
  {
    if fill.Some? && n <= |fill.value| then Some(fill.value[..n]) else None
  }

  /** Map each random byte to pool[byte % |pool|]; the result is as long as the bytes. */
  function MapBytes(bytes: seq<Byte>, pool: seq<char>): (r: seq<char>)
    requires |pool| > 0
    ensures |r| == |bytes|
  {
    seq(|bytes|, i requires 0 <= i < |bytes| => pool[bytes[i] % |pool|])
  }

  /** Every mapped character is drawn from the pool, whatever the byte. */
  lemma MapBytesInPool(bytes: seq<Byte>, pool: seq<char>)
    requires |pool| > 0
    ensures forall i :: 0 <= i < |bytes| ==> MapBytes(bytes, pool)[i] in pool
  {
  }

  // ---------------------------------------------------------------- GenerateCore

  /** The pool of GenerateCore: CHARSET_FULL with symbols, CHARSET_ALPHANUM without. */
  function CorePool(useSymbols: bool): (pool: seq<char>)
    ensures |pool| == if useSymbols then 83 else 62
  {
    CompositesAreConcatenations();
    if useSymbols then Full else Alphanum
  }

  /** What GenerateCore does: length check, allocation, context, one fill, then the mapping; no shuffle. */
  function CoreOutcome(length: int, useSymbols: bool, env: Env): Outcome
  {
    if length < MinPasswordLength then TooShort
    else if !env.heapOk then MemoryError
    else if !env.contextOk then ContextFailed
    else match FillBytes(env.fill, length)
      case None => RandomFailed
      case Some(bytes) => Generated(MapBytes(bytes, CorePool(useSymbols)))
  }

  /** GenerateCore(length, useSymbols) */
  method GenerateCore(length: int, useSymbols: bool, env: Env) returns (out: Outcome)
    ensures out == CoreOutcome(length, useSymbols, env)
  {
    var pool := CorePool(useSymbols);
    if length < MinPasswordLength {
      return TooShort;
    }
    if !env.heapOk {
      return MemoryError;
    }
    if !env.contextOk {
      return ContextFailed;
    }
    var filled := FillBytes(env.fill, length);
    if filled.None? {
      return RandomFailed;
    }
    var buffer := filled.value;
    var password := new char[length];
    for i := 0 to length
      invariant forall k :: 0 <= k < i ==> password[k] == pool[buffer[k] % |pool|]
    {
      password[i] := pool[buffer[i] % |pool|];
    }
    assert password[..] == MapBytes(buffer, pool);
    return Generated(password[..]);
  }

  /**
   * GenerateCore rejects a length below 4 before anything else; otherwise a
   * password has exactly length characters, character i being
   * pool[byte i % |pool|], in the order of the bytes.
   */
  lemma CoreContract(length: int, useSymbols: bool, env: Env)
    ensures CoreOutcome(length, useSymbols, env) == TooShort <==> length < MinPasswordLength
    ensures CoreOutcome(length, useSymbols, env).Generated? ==>
      var p := CoreOutcome(length, useSymbols, env).password;
      var pool := CorePool(useSymbols);
      |p| == length && env.fill.Some? && length <= |env.fill.value| &&
      forall i :: 0 <= i < length ==> p[i] == pool[env.fill.value[i] % |pool|]
  {
  }

  /** Without symbols, GenerateCore uses only letters and digits. */
  lemma CoreWithoutSymbols(length: int, env: Env)
    requires CoreOutcome(length, false, env).Generated?
    ensures forall i :: 0 <= i < |CoreOutcome(length, false, env).password| ==>
      var ch := CoreOutcome(length, false, env).password[i];
      IsLetter(ch) || IsDigit(ch)
  {
    var p := CoreOutcome(length, false, env).password;
    CompositesAreConcatenations();
    LettersShape();
    NumbersShape();
    forall i | 0 <= i < |p| ensures IsLetter(p[i]) || IsDigit(p[i]) {
      var k :| 0 <= k < |Alphanum| && Alphanum[k] == p[i];
      if k >= |Letters| {
        assert p[i] == Numbers[k - |Letters|];
      }
    }
  }

  // ------------------------------------------------------------ GenerateAdvanced

  /**
   * Three pools laid end to end over one buffer of random bytes: bytes
   * [0, n1) go through the first pool, [n1, n1 + n2) through the second and
   * the rest through the third.
   */
  function Segments(bytes: seq<Byte>, n1: nat, n2: nat, first: seq<char>, second: seq<char>, third: seq<char>): seq<char>
    requires n1 + n2 <= |bytes| && |first| > 0 && |second| > 0 && |third| > 0
  {
    MapBytes(bytes[..n1], first) + MapBytes(bytes[n1..n1 + n2], second) + MapBytes(bytes[n1 + n2..], third)
  }

  /** The three segments, read from the offsets and the end a writer computes, whatever form those take. */
  lemma SegmentSlices(bytes: seq<Byte>, n1: nat, n2: nat, first: seq<char>, second: seq<char>, third: seq<char>,
                      o2: nat, e2: nat, o3: nat, e3: nat)
    requires n1 + n2 <= |bytes| && |first| > 0 && |second| > 0 && |third| > 0
    requires o2 == n1 && e2 == n1 + n2 && o3 == n1 + n2 && e3 == |bytes|
    ensures Segments(bytes, n1, n2, first, second, third) ==
      MapBytes(bytes[0..0 + n1], first) + MapBytes(bytes[o2..e2], second) + MapBytes(bytes[o3..e3], third)
  {
    assert bytes[0..0 + n1] == bytes[..n1] && bytes[o3..e3] == bytes[n1 + n2..];
  }

  /** Position k of the segments is byte k, through the pool of the segment k falls in. */
  lemma SegmentAt(bytes: seq<Byte>, n1: nat, n2: nat, first: seq<char>, second: seq<char>, third: seq<char>, k: nat)
    requires n1 + n2 <= |bytes| && |first| > 0 && |second| > 0 && |third| > 0 && k < |bytes|
    ensures |Segments(bytes, n1, n2, first, second, third)| == |bytes|
    ensures Segments(bytes, n1, n2, first, second, third)[k] ==
      if k < n1 then first[bytes[k] % |first|]
      else if k < n1 + n2 then second[bytes[k] % |second|]
      else third[bytes[k] % |third|]
  {
    var a, b, d := MapBytes(bytes[..n1], first), MapBytes(bytes[n1..n1 + n2], second), MapBytes(bytes[n1 + n2..], third);
    if k < n1 {
      assert (a + b + d)[k] == a[k];
    } else if k < n1 + n2 {
      assert (a + b + d)[k] == b[k - n1];
    } else {
      assert (a + b + d)[k] == d[k - n1 - n2];
    }
  }

  /** Over pairwise disjoint pools, each pool contributes exactly its own segment's length. */
  lemma SegmentCounts(bytes: seq<Byte>, n1: nat, n2: nat, first: seq<char>, second: seq<char>, third: seq<char>)
    requires n1 + n2 <= |bytes| && |first| > 0 && |second| > 0 && |third| > 0
    requires Disjoint(first, second) && Disjoint(first, third) && Disjoint(second, third)
    ensures CountIn(Segments(bytes, n1, n2, first, second, third), first) == n1
    ensures CountIn(Segments(bytes, n1, n2, first, second, third), second) == n2
    ensures CountIn(Segments(bytes, n1, n2, first, second, third), third) == |bytes| - n1 - n2
  {
    var x, y, z := bytes[..n1], bytes[n1..n1 + n2], bytes[n1 + n2..];
    var a, b, d := MapBytes(x, first), MapBytes(y, second), MapBytes(z, third);
    DisjointSymmetric(first, second);
    DisjointSymmetric(first, third);
    DisjointSymmetric(second, third);
    CountInConcat(a + b, d, first);
    CountInConcat(a, b, first);
    CountInMapped(x, first, first);
    CountInMapped(y, second, first);
    CountInMapped(z, third, first);
    CountInConcat(a + b, d, second);
    CountInConcat(a, b, second);
    CountInMapped(x, first, second);
    CountInMapped(y, second, second);
    CountInMapped(z, third, second);
    CountInConcat(a + b, d, third);
    CountInConcat(a, b, third);
    CountInMapped(x, first, third);
    CountInMapped(y, second, third);
    CountInMapped(z, third, third);
  }

  /**
   * The category pool that fills position k of the assembled buffer: letters
   * first, then digits, then symbols, each for as many positions as its
   * enabled count.
   */
  function PoolAt(c: PasswordConfig, k: nat): (pool: seq<char>)
    ensures |pool| > 0
  {
    PoolSizes();
    var nl := Enabled(c.useLetters, c.letterLength);
    var nn := Enabled(c.useNumbers, c.numberLength);
    if k < nl then Letters else if k < nl + nn then Numbers else Symbols
  }

  /** Position k of the assembled buffer is made from random byte k, through the pool of its segment. */
  function AssembledAt(c: PasswordConfig, bytes: seq<Byte>, k: nat): char
    requires k < |bytes|
  {
    PoolAt(c, k)[bytes[k] % |PoolAt(c, k)|]
  }

  /**
   * Three segment writes, each appending to what the previous ones left and
   * reading the random bytes from the counts before it, fill the whole
   * buffer with the three segments laid end to end.
   */
  lemma PrefixSegments(buffer: seq<Byte>, n1: nat, n2: nat, n3: nat, first: seq<char>, second: seq<char>, third: seq<char>,
                       done1: seq<char>, done2: seq<char>, all: seq<char>, o2: nat, o3: nat, end: nat)
    requires |buffer| == n1 + n2 + n3 && |first| > 0 && |second| > 0 && |third| > 0
    requires done1 == [] + MapBytes(buffer[0..0 + n1], first)
    requires o2 == n1 && done2 == done1 + MapBytes(buffer[o2..o2 + n2], second)
    requires o3 == n1 + n2 && end == |all| && all[..end] == done2 + MapBytes(buffer[o3..o3 + n3], third)
    ensures all == Segments(buffer, n1, n2, first, second, third)
  {
    assert [] + MapBytes(buffer[0..0 + n1], first) == MapBytes(buffer[0..0 + n1], first);
    assert all == all[..end];
    SegmentSlices(buffer, n1, n2, first, second, third, o2, o2 + n2, o3, o3 + n3);
  }

  /**
   * Phase 1 of GenerateAdvanced: the letters segment, then the digits
   * segment, then the symbols segment; each reads the random bytes starting
   * at the sum of the enabled counts before it. A disabled category
   * contributes no segment and no offset.
   */
  function Assemble(c: PasswordConfig, bytes: seq<Byte>): (r: seq<char>)
    requires |bytes| == TotalLength(c)
    ensures |r| == TotalLength(c)
  {
    PoolSizes();
    Segments(bytes, Enabled(c.useLetters, c.letterLength), Enabled(c.useNumbers, c.numberLength), Letters, Numbers, Symbols)
  }

  /**
   * Every random byte is used exactly once, at its own position: position k
   * of the assembled buffer is byte k mapped through the pool of k's segment.
   */
  lemma AssembleUsesEachByteOnce(c: PasswordConfig, bytes: seq<Byte>)
    requires |bytes| == TotalLength(c)
    ensures forall k :: 0 <= k < |bytes| ==> Assemble(c, bytes)[k] == AssembledAt(c, bytes, k)
  {
    PoolSizes();
    var nl := Enabled(c.useLetters, c.letterLength);
    var nn := Enabled(c.useNumbers, c.numberLength);
    forall k | 0 <= k < |bytes| ensures Assemble(c, bytes)[k] == AssembledAt(c, bytes, k) {
      SegmentAt(bytes, nl, nn, Letters, Numbers, Symbols, k);
    }
  }

  /**
   * The three counts are C ints, and so is totalLength, the sum of the
   * enabled ones only: none of them may overflow.
   */
  predicate TotalFitsInt(c: PasswordConfig) {
    c.letterLength <= IntMax && c.numberLength <= IntMax && c.symbolLength <= IntMax && TotalLength(c) <= IntMax
  }

  /**
   * One segment block of GenerateAdvanced: when the category is enabled and
   * its count is positive, write count characters through the moving
   * position pos, character i from random byte offset + i mapped through
   * pool. Returns the advanced position: the characters before it are the
   * ones already done followed by the new segment, and nothing after it
   * changes.
   */
  method WriteSegment(password: array<char>, pos: nat, buffer: seq<Byte>, offset: nat, use: bool, count: nat, pool: seq<char>,
                      ghost done: seq<char>)
    returns (next: nat)
    requires |pool| > 0 && pos + Enabled(use, count) <= password.Length && offset + Enabled(use, count) <= |buffer|
    requires password[..pos] == done
    modifies password
    ensures next == pos + Enabled(use, count)
    ensures password[..next] == done + MapBytes(buffer[offset..offset + Enabled(use, count)], pool)
    ensures password[next..] == old(password[next..])
  {
    next := pos;
    if use && count > 0 {
      for i := 0 to count
        invariant next == pos + i
        invariant forall k :: 0 <= k < pos ==> password[k] == old(password[k])
        invariant forall k :: pos <= k < next ==> password[k] == pool[buffer[offset + (k - pos)] % |pool|]
        invariant forall k :: pos + count <= k < password.Length ==> password[k] == old(password[k])
      {
        password[next] := pool[buffer[offset + i] % |pool|];
        next := next + 1;
      }
    }
    ghost var m := done + MapBytes(buffer[offset..offset + Enabled(use, count)], pool);
    assert forall k :: 0 <= k < next ==> password[..next][k] == m[k];
  }

  /**
   * Phase 1 of GenerateAdvanced: write the letters, digits and symbols
   * segments into a fresh buffer through the moving position pos, each
   * segment reading the random buffer from its own offset: the enabled
   * counts before it.
   */
  method AssemblePassword(c: PasswordConfig, buffer: seq<Byte>) returns (password: array<char>)
    requires |buffer| == TotalLength(c)
    ensures fresh(password)
    ensures password[..] == Assemble(c, buffer)
  {
    var totalLength := |buffer|;
    password := new char[totalLength];

    var pos := WriteSegment(password, 0, buffer, 0, c.useLetters, c.letterLength, Letters, []);
    ghost var letters := password[..pos];

    var offset := if c.useLetters then c.letterLength else 0;
    pos := WriteSegment(password, pos, buffer, offset, c.useNumbers, c.numberLength, Numbers, letters);
    ghost var o2, numbers := offset, password[..pos];

    offset := 0;
    if c.useLetters { offset := offset + c.letterLength; }
    if c.useNumbers { offset := offset + c.numberLength; }
    pos := WriteSegment(password, pos, buffer, offset, c.useSymbols, c.symbolLength, Symbols, numbers);
    assert password[..] == Assemble(c, buffer) by {
      PoolSizes();
      PrefixSegments(buffer, Enabled(c.useLetters, c.letterLength), Enabled(c.useNumbers, c.numberLength),
        Enabled(c.useSymbols, c.symbolLength), Letters, Numbers, Symbols, letters, numbers, password[..], o2, offset, pos);
    }
  }

  /**
   * What GenerateAdvanced does: reject "no category" before anything else,
   * reject a total below 4, then allocate, acquire, fill totalLength bytes
   * in one call, assemble, and shuffle with the same source.
   */
  function AdvancedOutcome(c: PasswordConfig, env: Env): Outcome
    requires TotalFitsInt(c)
  {
    if !c.useLetters && !c.useNumbers && !c.useSymbols then NoCategoryEnabled
    else if TotalLength(c) < MinPasswordLength then TooShort
    else if !env.heapOk then MemoryError
    else if !env.contextOk then ContextFailed
    else match FillBytes(env.fill, TotalLength(c))
      case None => RandomFailed
      case Some(bytes) => Generated(Shuffled(Assemble(c, bytes), env.words))
  }

  /**
   * GenerateAdvanced(letterCount, numberCount, symbolCount, useLetters,
   * useNumbers, useSymbols), with the six arguments gathered in c. The
   * buffer is filled through the moving position pos; each segment reads
   * the random buffer from its own offset.
   */
  method GenerateAdvanced(c: PasswordConfig, env: Env) returns (out: Outcome)
    requires TotalFitsInt(c)
    ensures out == AdvancedOutcome(c, env)
  {
    if !c.useLetters && !c.useNumbers && !c.useSymbols {
      return NoCategoryEnabled;
    }
    var totalLength := 0;
    if c.useLetters { totalLength := totalLength + c.letterLength; }
    if c.useNumbers { totalLength := totalLength + c.numberLength; }
    if c.useSymbols { totalLength := totalLength + c.symbolLength; }
    if totalLength < MinPasswordLength {
      return TooShort;
    }
    if !env.heapOk {
      return MemoryError;
    }
    if !env.contextOk {
      return ContextFailed;
    }
    var filled := FillBytes(env.fill, totalLength);
    if filled.None? {
      return RandomFailed;
    }
    var password := AssemblePassword(c, filled.value);
    ShufflePassword(password, env.words);
    return Generated(password[..]);
  }

  // ------------------------------------------------- what the password contains

  /** How many characters of s belong to pool. */
  function CountIn(s: seq<char>, pool: seq<char>): nat
  {
    if s == [] then 0 else CountIn(s[..|s| - 1], pool) + (if s[|s| - 1] in pool then 1 else 0)
  }

  lemma {:induction false} CountInConcat(a: seq<char>, b: seq<char>, pool: seq<char>)
    ensures CountIn(a + b, pool) == CountIn(a, pool) + CountIn(b, pool)
    decreases |b|
  {
    if b == [] {
      assert a + b == a;
    } else {
      assert (a + b)[..|a + b| - 1] == a + b[..|b| - 1];
      CountInConcat(a, b[..|b| - 1], pool);
    }
  }

  /** Permuting a string does not change how many of its characters lie in a pool. */
  lemma {:induction false} CountInPermutation(a: seq<char>, b: seq<char>, pool: seq<char>)
    requires multiset(a) == multiset(b)
    ensures CountIn(a, pool) == CountIn(b, pool)
    decreases |a|
  {
    if a != [] {
      var x := a[|a| - 1];
      assert a == a[..|a| - 1] + [x];
      assert x in multiset(b);
      var k :| 0 <= k < |b| && b[k] == x;
      assert b == b[..k] + [x] + b[k + 1..];
      var rest := b[..k] + b[k + 1..];
      assert multiset(a[..|a| - 1]) == multiset(rest) by {
        assert multiset(a) == multiset(a[..|a| - 1]) + multiset{x};
        assert multiset(b) == multiset(b[..k]) + multiset{x} + multiset(b[k + 1..]);
        assert multiset(rest) == multiset(b[..k]) + multiset(b[k + 1..]);
        assert multiset(a[..|a| - 1]) == multiset(a) - multiset{x};
        assert multiset(rest) == multiset(b) - multiset{x};
      }
      CountInPermutation(a[..|a| - 1], rest, pool);
      CountInConcat(b[..k] + [x], b[k + 1..], pool);
      CountInConcat(b[..k], [x], pool);
      CountInConcat(b[..k], b[k + 1..], pool);
      assert CountIn([x], pool) == CountIn([], pool) + (if x in pool then 1 else 0) by {
        assert [x][..0] == [];
      }
    }
  }

  /** Mapping bytes through one pool gives only characters of that pool, and none of a disjoint one. */
  lemma {:induction false} CountInMapped(bytes: seq<Byte>, from: seq<char>, pool: seq<char>)
    requires |from| > 0
    ensures from == pool ==> CountIn(MapBytes(bytes, from), pool) == |bytes|
    ensures Disjoint(from, pool) ==> CountIn(MapBytes(bytes, from), pool) == 0
    decreases |bytes|
  {
    if bytes != [] {
      var m := MapBytes(bytes, from);
      assert m[..|m| - 1] == MapBytes(bytes[..|bytes| - 1], from);
      CountInMapped(bytes[..|bytes| - 1], from, pool);
      var last := m[|m| - 1];
      assert last == from[bytes[|bytes| - 1] % |from|];
    }
  }

  /** The assembled buffer holds exactly the enabled count of each category. */
  lemma AssembledCounts(c: PasswordConfig, bytes: seq<Byte>)
    requires |bytes| == TotalLength(c)
    ensures CountIn(Assemble(c, bytes), Letters) == Enabled(c.useLetters, c.letterLength)
    ensures CountIn(Assemble(c, bytes), Numbers) == Enabled(c.useNumbers, c.numberLength)
    ensures CountIn(Assemble(c, bytes), Symbols) == Enabled(c.useSymbols, c.symbolLength)
  {
    PoolSizes();
    CategoriesDisjoint();
    SegmentCounts(bytes, Enabled(c.useLetters, c.letterLength), Enabled(c.useNumbers, c.numberLength), Letters, Numbers, Symbols);
  }

  lemma DisjointSymmetric(s: seq<char>, t: seq<char>)
    requires Disjoint(s, t)
    ensures Disjoint(t, s)
  {
  }

  /**
   * The password buffer GenerateAdvanced fills (as copied to the clipboard)
   * has totalLength characters, exactly as many letters, digits and symbols
   * as the breakdown it reports
   * (L=, N=, S=: the enabled counts), whether or not the shuffle ran to the end.
   */
  lemma AdvancedPasswordContents(c: PasswordConfig, env: Env)
    requires TotalFitsInt(c) && AdvancedOutcome(c, env).Generated?
    ensures |AdvancedOutcome(c, env).password| == TotalLength(c)
    ensures CountIn(AdvancedOutcome(c, env).password, Letters) == Enabled(c.useLetters, c.letterLength)
    ensures CountIn(AdvancedOutcome(c, env).password, Numbers) == Enabled(c.useNumbers, c.numberLength)
    ensures CountIn(AdvancedOutcome(c, env).password, Symbols) == Enabled(c.useSymbols, c.symbolLength)
  {
    var bytes := FillBytes(env.fill, TotalLength(c)).value;
    var assembled := Assemble(c, bytes);
    var p := Shuffled(assembled, env.words);
    AssembledCounts(c, bytes);
    CountInPermutation(p, assembled, Letters);
    CountInPermutation(p, assembled, Numbers);
    CountInPermutation(p, assembled, Symbols);
  }

  /**
   * GenerateAdvanced's validation: "no category" is reported before anything
   * else (no random draw happens), and a total below 4 is reported next; the
   * total counts enabled categories only.
   */
  lemma AdvancedValidation(c: PasswordConfig, env: Env)
    requires TotalFitsInt(c)
    ensures AdvancedOutcome(c, env) == NoCategoryEnabled <==> !c.useLetters && !c.useNumbers && !c.useSymbols
    ensures AdvancedOutcome(c, env) == TooShort <==>
      (c.useLetters || c.useNumbers || c.useSymbols) && TotalLength(c) < MinPasswordLength
    ensures AdvancedOutcome(c, env).Generated? ==>
      (c.useLetters || c.useNumbers || c.useSymbols) && TotalLength(c) >= MinPasswordLength
  {
  }
}
